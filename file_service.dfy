/** The path and naming rules of the file service: the extension of an
    export format, the output name `determine_output_path` chooses, the
    sidecar metadata path and record, the normalisation of the image mode
    and the short basename taken from a document id. */
module FileService {
  import opened Wrappers
  import opened Strings
  import opened Paths
  import opened Disk

  /** An optional string argument Python treats as given: present and
      not empty (`if not x` rejects both `None` and ""). */
  predicate Given(o: Option<string>)
  {
    o.Some? && o.value != ""
  }

  /** Where `save_uploaded_file` puts an upload: `UPLOADS_DIR / filename`. */
  function UploadPath(uploadsDir: string, filename: string): (p: string)
    ensures EndsWith(p, filename)
  {
    var p := Join(uploadsDir, filename);
    assert p[|p| - |filename|..] == filename;
    p
  }

  /** The file name is not sanitised: an absolute name escapes the uploads
      directory altogether. */
  lemma UploadPathAbsolute(uploadsDir: string, filename: string)
    requires StartsWith(filename, "/")
    ensures UploadPath(uploadsDir, filename) == filename
  {
  }

  /** `save_uploaded_file`: the bytes are written under the upload's own
      name; a failed write raises (the error's text is a parameter of the
      model: "cannot write" and the path). */
  method SaveUploadedFile(disk: FileSystem, uploadsDir: string, filename: string, content: seq<Byte>)
    returns (r: Result<string, string>)
    modifies disk
    ensures var p := UploadPath(uploadsDir, filename);
            var written := WriteFile(old(disk.State()), p, Blob(content));
            disk.State() == written.1 && r == (if written.0 then Ok(p) else Err("cannot write " + p))
  {
    var p := UploadPath(uploadsDir, filename);
    var ok := disk.Write(p, Blob(content));
    r := if ok then Ok(p) else Err("cannot write " + p);
  }

  /** `get_file_extension`: three formats have their own extension, every
      other format `f` gets `"." + f`. */
  function FileExtension(format: string): (e: string)
    ensures |e| >= 1 && e[0] == '.'
  {
    if format == "markdown" then ".md"
    else if format == "text" then ".txt"
    else if format == "doctags" then ".doctags"
    else "." + format
  }

  /** The extension step shared by `determine_output_path` and `convert_url`:
      a name already ending with `ext` is kept, any other loses its trailing
      dots and gains `ext`. */
  function WithExtension(name: string, ext: string): (r: string)
    ensures EndsWith(r, ext)
  {
    if EndsWith(name, ext) then name
    else
      var base := RStrip(name, '.');
      assert (base + ext)[|base + ext| - |ext|..] == ext;
      base + ext
  }

  /** Applying the extension step twice changes nothing more. */
  lemma WithExtensionIdempotent(name: string, ext: string)
    ensures WithExtension(WithExtension(name, ext), ext) == WithExtension(name, ext)
  {
  }

  /** The name `determine_output_path` joins to `OUTPUT_DIR`; `hex` is the
      `uuid4().hex` drawn for a synthesised name. */
  function OutputName(originalFilename: string, format: string, outputFilename: Option<string>, hex: string): (n: string)
    ensures EndsWith(n, FileExtension(format))
  {
    var name := if Given(outputFilename) then outputFilename.value else Stem(Name(originalFilename)) + "_" + hex;
    WithExtension(name, FileExtension(format))
  }

  /** A given name is kept when it already ends with the extension, and
      otherwise loses its trailing dots and gains the extension. */
  lemma GivenOutputName(originalFilename: string, format: string, given: string, hex: string)
    requires given != ""
    ensures var n := OutputName(originalFilename, format, Some(given), hex);
            var ext := FileExtension(format);
            (EndsWith(given, ext) ==> n == given) && (!EndsWith(given, ext) ==> n == RStrip(given, '.') + ext)
  {
  }

  /** `determine_output_path`. */
  function OutputPath(outputDir: string, originalFilename: string, format: string, outputFilename: Option<string>, hex: string): (p: string)
    ensures EndsWith(p, FileExtension(format))
  {
    var n := OutputName(originalFilename, format, outputFilename, hex);
    JoinEndsWith(outputDir, n);
    EndsWithTrans(Join(outputDir, n), n, FileExtension(format));
    Join(outputDir, n)
  }

  /** `uuid4().hex`: 32 lower-case hexadecimal digits. */
  predicate LowerHex(c: char)
  {
    '0' <= c <= '9' || 'a' <= c <= 'f'
  }

  predicate UuidHex(h: string)
  {
    |h| == 32 && forall i :: 0 <= i < |h| ==> LowerHex(h[i])
  }

  /** A synthesised name is the stem of the original name, '_', the hex
      value and the extension: the hex digits cannot end with an extension
      (it starts with a dot), nor with a dot to strip. */
  lemma {:induction false} SynthesisedName(originalFilename: string, format: string, hex: string)
    requires UuidHex(hex)
    requires |FileExtension(format)| <= |hex|
    ensures OutputName(originalFilename, format, None, hex) == Stem(Name(originalFilename)) + "_" + hex + FileExtension(format)
  {
    var name := Stem(Name(originalFilename)) + "_" + hex;
    var ext := FileExtension(format);
    var k := |name| - |ext|;
    assert name[k] == hex[k - (|name| - |hex|)];
    assert LowerHex(name[k]);
    assert name[k..][0] == name[k];
    assert name[|name| - 1] == hex[31];
    assert RStrip(name, '.') == name;
  }

  /** `output_path.with_suffix('.meta.json')`. */
  function MetadataPath(outputPath: string): (m: string)
    ensures Name(m) == Stem(Name(outputPath)) + ".meta.json"
  {
    WithSuffixName(outputPath, ".meta.json");
    WithSuffix(outputPath, ".meta.json")
  }

  /** The metadata path of an output is itself named `... .meta.json`. */
  lemma MetadataPathSuffix(outputPath: string)
    ensures EndsWith(MetadataPath(outputPath), ".meta.json")
  {
    var m := MetadataPath(outputPath);
    EndsWithConcat(Stem(Name(outputPath)), ".meta.json");
    EndsWithTrans(m, Name(m), ".meta.json");
  }

  /** Two outputs that differ only in their last suffix share one metadata
      file: the later `save_metadata` overwrites the earlier record. */
  lemma SharedMetadataPath(dir: string, stem: string)
    requires '/' !in stem && '.' !in stem && stem != ""
    requires dir != "" && !StartsWith(stem, "/")
    ensures MetadataPath(dir + "/" + stem + ".md") == MetadataPath(dir + "/" + stem + ".html")
  {
    MetadataOfJoin(dir, stem, ".md");
    MetadataOfJoin(dir, stem, ".html");
  }

  lemma MetadataOfJoin(dir: string, stem: string, ext: string)
    requires '/' !in stem && '.' !in stem && stem != ""
    requires dir != "" && !StartsWith(stem, "/")
    requires |ext| >= 2 && ext[0] == '.' && '.' !in ext[1..] && '/' !in ext
    ensures MetadataPath(dir + "/" + stem + ext) == dir + "/" + stem + ".meta.json"
  {
    var child := stem + ext;
    var a := dir + "/" + child;
    assert dir + "/" + stem + ext == a;
    PartsOfJoin(dir, child);
    SuffixOf(stem, ext);
    WithSuffixParts(a, dir, stem, ".meta.json");
  }

  lemma WithSuffixParts(p: string, dir: string, stem: string, suffix: string)
    requires Parent(p) == dir && dir != "" && Stem(Name(p)) == stem
    ensures WithSuffix(p, suffix) == dir + "/" + stem + suffix
  {
  }

  /** The stem of `stem + ext` for a dot-free stem and a one-dot extension. */
  lemma SuffixOf(stem: string, ext: string)
    requires stem != "" && '.' !in stem && '/' !in stem
    requires |ext| >= 2 && ext[0] == '.' && '.' !in ext[1..]
    ensures Stem(stem + ext) == stem
  {
    var n := stem + ext;
    assert n[|stem|] == '.';
    forall k | |stem| < k < |n| ensures n[k] != '.' {
      assert n[k] == ext[1..][k - |stem| - 1];
    }
    assert LastIndexOf(n, '.') == |stem|;
    assert n[..|stem|] == stem;
  }

  lemma PartsOfJoin(dir: string, child: string)
    requires dir != "" && child != [] && '/' !in child
    ensures Name(dir + "/" + child) == child && Parent(dir + "/" + child) == dir
  {
    assert child[..1][0] == child[0];
    assert Join(dir, child) == dir + "/" + child;
    NameOfJoin(dir, child);
    ParentOfJoin(dir, child);
  }

  lemma ParentOfJoin(dir: string, child: string)
    requires dir != "" && child != [] && '/' !in child
    ensures Parent(dir + "/" + child) == dir
  {
    var p := dir + "/" + child;
    assert p[|dir|] == '/';
    forall k | |dir| < k < |p| ensures p[k] != '/' {
      assert p[k] == child[k - |dir| - 1];
    }
    assert LastIndexOf(p, '/') == |dir|;
    assert p[..|dir|] == dir;
  }

  /** The record `save_metadata` writes; `now` is `time.time()`. */
  function MetadataRecord(source: string, now: int, format: string, mode: string): (r: MetaRecord)
    ensures r.source == source && r.format == format && r.imageExportMode == mode && r.convertedAt == now
  {
    MetaRecord(source, now, format, mode)
  }

  /** `save_metadata`: writes the record next to the output; a failed write
      is swallowed, so nothing is returned and nothing else changes. */
  method SaveMetadata(disk: FileSystem, outputPath: string, source: string, now: int, format: string, mode: string)
    modifies disk
    ensures disk.State() == WriteFile(old(disk.State()), MetadataPath(outputPath), Meta(MetadataRecord(source, now, format, mode))).1
  {
    var _ := disk.Write(MetadataPath(outputPath), Meta(MetadataRecord(source, now, format, mode)));
  }

  /** The image modes `export_document` accepts. */
  predicate ValidMode(m: string)
  {
    m == "embedded" || m == "referenced" || m == "placeholder"
  }

  /** The mode check of `export_document`: a mode whose lower-case form is
      valid becomes that form, anything else becomes "referenced". */
  function NormaliseMode(mode: string): (r: string)
    ensures ValidMode(r)
    ensures ValidMode(Lower(mode)) ==> r == Lower(mode)
    ensures !ValidMode(Lower(mode)) ==> r == "referenced"
  {
    if ValidMode(Lower(mode)) then Lower(mode) else "referenced"
  }

  /** Normalising a normalised mode changes nothing. */
  lemma NormaliseModeIdempotent(mode: string)
    ensures NormaliseMode(NormaliseMode(mode)) == NormaliseMode(mode)
  {
    var r := NormaliseMode(mode);
    if r == "embedded" {
      LowerOfLowercase("embedded");
    } else if r == "referenced" {
      LowerOfLowercase("referenced");
    } else {
      LowerOfLowercase("placeholder");
    }
  }

  lemma LowerOfLowercase(s: string)
    requires forall i :: 0 <= i < |s| ==> 'a' <= s[i] <= 'z'
    ensures Lower(s) == s
  {
  }

  /** The class `[0-9a-f-]`. */
  predicate HexDash(c: char)
  {
    LowerHex(c) || c == '-'
  }

  /** `UUID_SHORT_PATTERN = ^(.{8})[0-9a-f-]+$` matches `id` up to `e`:
      eight characters other than '\n', at least one hex digit or dash up
      to `e`, and `$` at `e`, which is the end or just before a final
      newline. */
  predicate ShortMatch(id: string, e: nat)
  {
    8 < e <= |id|
    && (e == |id| || (e == |id| - 1 && id[e] == '\n'))
    && (forall i :: 0 <= i < 8 ==> id[i] != '\n')
    && (forall i :: 8 <= i < e ==> HexDash(id[i]))
  }

  /** The file basename of a string document id: `UUID_SHORT_PATTERN.sub`,
      which keeps the first eight characters (and a final newline the `$`
      stopped before); an id the pattern does not match is kept whole. */
  function ShortBasename(id: string): (r: string)
    ensures forall e: nat :: ShortMatch(id, e) ==> r == id[..8] + id[e..]
    ensures (forall e: nat :: !ShortMatch(id, e)) ==> r == id
  {
    if ShortMatch(id, |id|) then id[..8]
    else if |id| > 0 && ShortMatch(id, |id| - 1) then id[..8] + "\n"
    else id
  }

  /** A document id as `export_document` receives it: a `str`, or any
      other object, known here by the text `str()` gives for it. */
  datatype DocumentId = TextId(text: string) | OtherId(shown: string)

  /** The file basename of a document id: the pattern applies to a `str`
      id only; any other id is used as `str()` renders it. */
  function Basename(id: DocumentId): string
  {
    match id
    case TextId(text) => ShortBasename(text)
    case OtherId(shown) => shown
  }

  /** `str(uuid)`: the 32 hex digits in groups of 8, 4, 4, 4 and 12. */
  function UuidText(h: string): (t: string)
    requires |h| == 32
    ensures |t| == 36 && t[..8] == h[..8]
  {
    h[..8] + "-" + h[8..12] + "-" + h[12..16] + "-" + h[16..20] + "-" + h[20..]
  }

  /** A generated document id shortens to its first eight hex digits. */
  lemma UuidBasename(h: string)
    requires UuidHex(h)
    ensures ShortBasename(UuidText(h)) == h[..8]
  {
    var t := UuidText(h);
    forall i | 0 <= i < 36 ensures t[i] != '\n' && (8 <= i ==> HexDash(t[i])) {
      if i < 8 { assert t[i] == h[i]; }
      else if i == 8 || i == 13 || i == 18 || i == 23 { }
      else if i < 13 { assert t[i] == h[i - 1]; }
      else if i < 18 { assert t[i] == h[i - 2]; }
      else if i < 23 { assert t[i] == h[i - 3]; }
      else { assert t[i] == h[i - 4]; }
    }
    assert ShortMatch(t, |t|);
  }

  /** The same uuid names its file differently by type: as a `str` it is
      cut to its first eight hex digits, as a `uuid.UUID` object it keeps
      all 36 characters of its text. */
  lemma UuidObjectKeptWhole(h: string)
    requires UuidHex(h)
    ensures Basename(TextId(UuidText(h))) == h[..8]
    ensures Basename(OtherId(UuidText(h))) == UuidText(h) && |Basename(OtherId(UuidText(h)))| == 36
  {
    UuidBasename(h);
  }

  /** Any id whose tail after eight characters is hex digits and dashes
      is cut, not only a UUID: "document-1" becomes "document". */
  lemma ShortBasenameCutsWords()
    ensures ShortBasename("document-1") == "document"
    ensures ShortBasename("report-2024") == "report-2"
    ensures ShortBasename("abcdefgh01\n") == "abcdefgh\n"
    ensures ShortBasename("notes.txt") == "notes.txt"
  {
    assert ShortMatch("document-1", 10);
    assert ShortMatch("report-2024", 11);
    assert !HexDash("abcdefgh01\n"[10]);
    assert ShortMatch("abcdefgh01\n", 10);
    assert !HexDash("notes.txt"[8]);
  }
}
