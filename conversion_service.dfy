/** The conversion service around the conversion library: the OCR
    language list, the choices `create_converter_with_options` makes from
    the options, the extension a downloaded file is saved under, and the
    progress writes of the URL background job. The library's converter
    objects are represented by the record of choices handed to them. */
module ConversionService {
  import opened Wrappers
  import opened Strings
  import opened Paths
  import opened Models

  // ---------------------------------------------------------------- _split_list

  /** The separators of `re.split(r"[;,]", raw)`. */
  predicate IsListSep(c: char)
  {
    c == ';' || c == ','
  }

  /** `re.split(r"[;,]", s)`: the pieces between separators, empty ones
      included. */
  function Split(s: string): (r: seq<string>)
    ensures |r| == CountWhere(s, IsListSep) + 1
    ensures forall i, j :: 0 <= i < |r| && 0 <= j < |r[i]| ==> !IsListSep(r[i][j])
  {
    if s == [] then [""]
    else
      var t := Split(s[1..]);
      if IsListSep(s[0]) then [""] + t
      else
        var head := [s[0]] + t[0];
        assert forall j :: 0 <= j < |head| ==> !IsListSep(head[j]) by {
          forall j | 0 <= j < |head| ensures !IsListSep(head[j]) {
            if j > 0 {
              assert head[j] == t[0][j - 1];
            }
          }
        }
        [head] + t[1..]
  }

  /** The separators of `s`, in order. */
  function Separators(s: string): (r: string)
    ensures |r| == CountWhere(s, IsListSep)
  {
    if s == [] then []
    else (if IsListSep(s[0]) then [s[0]] else []) + Separators(s[1..])
  }

  /** The pieces put back together, each separator where it stood. */
  function Interleave(pieces: seq<string>, seps: string): string
    requires |pieces| == |seps| + 1
  {
    if seps == [] then pieces[0]
    else pieces[0] + [seps[0]] + Interleave(pieces[1..], seps[1..])
  }

  /** Nothing is lost by the split: rejoining the pieces with the
      separators between them gives back the input. */
  lemma {:induction false} SplitRejoins(s: string)
    ensures Interleave(Split(s), Separators(s)) == s
  {
    if s != [] {
      SplitRejoins(s[1..]);
      var t := Split(s[1..]);
      var seps := Separators(s[1..]);
      if IsListSep(s[0]) {
        assert Split(s) == [""] + t;
        assert Separators(s) == [s[0]] + seps;
        assert (Split(s))[1..] == t;
      } else {
        assert Separators(s) == seps;
        assert Split(s) == [[s[0]] + t[0]] + t[1..];
        InterleaveHead(s[0], t, seps);
        assert [s[0]] + s[1..] == s;
      }
    }
  }

  /** A character joined to the first piece comes first in the result. */
  lemma InterleaveHead(c: char, t: seq<string>, seps: string)
    requires |t| == |seps| + 1
    ensures Interleave([[c] + t[0]] + t[1..], seps) == [c] + Interleave(t, seps)
  {
    var u := [[c] + t[0]] + t[1..];
    assert u[0] == [c] + t[0] && u[1..] == t[1..];
    if seps != [] {
      assert Interleave(u, seps) == u[0] + [seps[0]] + Interleave(u[1..], seps[1..]);
      assert Interleave(t, seps) == t[0] + [seps[0]] + Interleave(t[1..], seps[1..]);
    }
  }

  /** `_split_list`: `None` stays `None`; a string is split. */
  function SplitList(raw: Option<string>): (r: Option<seq<string>>)
    ensures r.None? <==> raw.None?
    ensures r.Some? ==> |r.value| == CountWhere(raw.value, IsListSep) + 1
  {
    if raw.None? then None else Some(Split(raw.value))
  }

  /** A text without separators is a single piece. */
  lemma {:induction false} SplitNoSeparator(s: string)
    requires forall j :: 0 <= j < |s| ==> !IsListSep(s[j])
    ensures Split(s) == [s]
  {
    if s != [] {
      SplitNoSeparator(s[1..]);
      assert [s[0]] + s[1..] == s;
    }
  }

  /** The first piece runs up to the first separator; the rest is split
      from just after it. */
  lemma {:induction false} SplitAtFirst(a: string, sep: char, b: string)
    requires forall j :: 0 <= j < |a| ==> !IsListSep(a[j])
    requires IsListSep(sep)
    ensures Split(a + [sep] + b) == [a] + Split(b)
  {
    var s := a + [sep] + b;
    if a != [] {
      assert s[0] == a[0] && s[1..] == a[1..] + [sep] + b;
      SplitAtFirst(a[1..], sep, b);
      assert [a[0]] + a[1..] == a;
    } else {
      assert s[0] == sep && s[1..] == b;
    }
  }

  /** Two separator-free texts around one separator are two pieces, and
      a separator at either end gives an empty piece there. */
  lemma SplitAroundOne(a: string, sep: char, b: string)
    requires forall j :: 0 <= j < |a| ==> !IsListSep(a[j])
    requires forall j :: 0 <= j < |b| ==> !IsListSep(b[j])
    requires IsListSep(sep)
    ensures Split(a + [sep] + b) == [a, b]
  {
    SplitAtFirst(a, sep, b);
    SplitNoSeparator(b);
  }

  // ---------------------------------------------------------------- converter choices

  /** The backend classes a standard pipeline can be given. */
  datatype BackendClass = DoclingParseBackend | DoclingParseV2Backend | DoclingParseV4Backend | PyPdfiumBackend

  /** The VLM option sets a VLM pipeline can be given. */
  datatype VlmOptionSet = GraniteVisionOptions | SmolDoclingOptions | SmolDoclingMlxOptions

  /** The OCR options: the engine, full-page forcing, and the language list
      when it overrides the engine's default. */
  datatype OcrChoice = OcrChoice(kind: string, forceFullPageOcr: bool, lang: Option<seq<string>>)

  /** The format option for PDF (and image) inputs. A `None` in an
      `Option` field means the library's default is left in place. */
  datatype PdfFormatChoice =
    | StandardFormat(doOcr: bool, ocr: OcrChoice, numThreads: int, device: AcceleratorDevice,
                     doTableStructure: bool, doCellMatching: bool, tableMode: TableFormerMode,
                     doCodeEnrichment: bool, doFormulaEnrichment: bool,
                     doPictureDescription: bool, doPictureClassification: bool,
                     generatePageImages: bool, generatePictureImages: bool, imagesScale: Option<int>,
                     backend: Option<BackendClass>)
    | VlmFormat(vlmOptions: Option<VlmOptionSet>)

  /** What the converter is built with: the PDF and image format options
      (the same value, possibly `None`) and the simple pipeline for DOCX. */
  datatype ConverterChoice = ConverterChoice(pdf: Option<PdfFormatChoice>, image: Option<PdfFormatChoice>, docxSimplePipeline: bool)

  /** The backend class selected by the `pdf_backend` option. */
  function BackendOf(b: PdfBackend): Option<BackendClass>
  {
    match b
    case DlparseV1 => Some(DoclingParseBackend)
    case DlparseV2 => Some(DoclingParseV2Backend)
    case DlparseV4 => Some(DoclingParseV4Backend)
    case Pypdfium2 => Some(PyPdfiumBackend)
    case OtherBackend => None
  }

  /** The backend mapping is one-to-one on the four named backends, and
      every other value leaves the backend unset. */
  lemma BackendOneToOne(a: PdfBackend, b: PdfBackend)
    ensures BackendOf(a).None? <==> a == OtherBackend
    ensures BackendOf(a).Some? && BackendOf(a) == BackendOf(b) ==> a == b
  {
  }

  /** The VLM option set chosen for a model; the MLX variant of SmolDocling
      only on macOS with `mlx_vlm` importable. */
  function VlmOptionsOf(m: VlmModelType, darwin: bool, mlxImportable: bool): Option<VlmOptionSet>
  {
    match m
    case GraniteVision => Some(GraniteVisionOptions)
    case SmolDocling => if darwin && mlxImportable then Some(SmolDoclingMlxOptions) else Some(SmolDoclingOptions)
    case OtherVlmModel => None
  }

  /** The OCR options; the language list is overridden only by a non-empty
      `ocr_lang`. */
  function OcrOf(o: ConversionOptions): (c: OcrChoice)
    ensures c.lang.Some? <==> o.ocrLang.Some? && o.ocrLang.value != ""
    ensures c.lang.Some? ==> |c.lang.value| == CountWhere(o.ocrLang.value, IsListSep) + 1
  {
    var lang := if o.ocrLang.Some? && o.ocrLang.value != "" then SplitList(o.ocrLang) else None;
    OcrChoice(o.ocrEngine, o.forceOcr, lang)
  }

  /** The standard pipeline's option record, built field by field as the
      service sets it: tables with cell matching always on, page and
      picture images at scale 2 unless images are placeholders. */
  function StandardOf(o: ConversionOptions): PdfFormatChoice
  {
    var images := o.imageExportMode != Placeholder;
    StandardFormat(o.ocr, OcrOf(o), o.numThreads, o.device, true, true, o.tableMode,
                   o.enrichCode, o.enrichFormula, o.enrichPictureDescription, o.enrichPictureClasses,
                   images, images, if images then Some(2) else None, BackendOf(o.pdfBackend))
  }

  /** `create_converter_with_options`, as the choices it hands the library. */
  function Decide(o: ConversionOptions, darwin: bool, mlxImportable: bool): (c: ConverterChoice)
    ensures c.image == c.pdf && c.docxSimplePipeline
    ensures c.pdf.None? <==> o.pipeline == OtherPipeline
    ensures o.pipeline == Standard ==> c.pdf.value.StandardFormat?
    ensures o.pipeline == Vlm ==> c.pdf.value.VlmFormat?
  {
    var pdf := match o.pipeline
               case Standard => Some(StandardOf(o))
               case Vlm => Some(VlmFormat(VlmOptionsOf(o.vlmModel, darwin, mlxImportable)))
               case OtherPipeline => None;
    ConverterChoice(pdf, pdf, true)
  }

  /** The standard pipeline generates page and picture images, at scale 2,
      exactly when the image mode is not PLACEHOLDER; it always does table
      structure with cell matching, and passes the OCR, enrichment and
      backend options through. */
  lemma StandardChoices(o: ConversionOptions, darwin: bool, mlxImportable: bool)
    requires o.pipeline == Standard
    ensures var f := Decide(o, darwin, mlxImportable).pdf.value;
            (f.generatePageImages <==> o.imageExportMode != Placeholder)
            && (f.generatePictureImages <==> o.imageExportMode != Placeholder)
            && (f.imagesScale == Some(2) <==> o.imageExportMode != Placeholder)
            && (f.imagesScale.Some? ==> f.imagesScale == Some(2))
            && f.doTableStructure && f.doCellMatching && f.tableMode == o.tableMode
            && f.doOcr == o.ocr && f.ocr.kind == o.ocrEngine && f.ocr.forceFullPageOcr == o.forceOcr
            && (f.ocr.lang.Some? <==> o.ocrLang.Some? && o.ocrLang.value != "")
            && f.doCodeEnrichment == o.enrichCode && f.doFormulaEnrichment == o.enrichFormula
            && f.doPictureDescription == o.enrichPictureDescription
            && f.doPictureClassification == o.enrichPictureClasses
            && (f.backend.None? <==> o.pdfBackend == OtherBackend)
            && f.numThreads == o.numThreads && f.device == o.device
  {
  }

  /** The VLM pipeline: GRANITE_VISION and SMOLDOCLING select their option
      sets, the MLX variant exactly on macOS with `mlx_vlm` importable, and
      any other model keeps the pipeline's default. */
  lemma VlmChoices(o: ConversionOptions, darwin: bool, mlxImportable: bool)
    requires o.pipeline == Vlm
    ensures var v := Decide(o, darwin, mlxImportable).pdf.value.vlmOptions;
            (v == Some(GraniteVisionOptions) <==> o.vlmModel == GraniteVision)
            && (v == Some(SmolDoclingMlxOptions) <==> o.vlmModel == SmolDocling && darwin && mlxImportable)
            && (v == Some(SmolDoclingOptions) <==> o.vlmModel == SmolDocling && !(darwin && mlxImportable))
            && (v.None? <==> o.vlmModel == OtherVlmModel)
  {
  }

  /** The default options choose the standard pipeline with images at
      scale 2, the DLPARSE_V2 backend and the OCR engine's own languages. */
  lemma DefaultChoices(darwin: bool, mlxImportable: bool)
    ensures var f := Decide(DefaultOptions(), darwin, mlxImportable).pdf;
            f.Some? && f.value.StandardFormat? && f.value.imagesScale == Some(2)
            && f.value.backend == Some(DoclingParseV2Backend) && f.value.ocr.lang == None
  {
  }

  // ---------------------------------------------------------------- urlparse(...).path

  predicate IsAsciiLetter(c: char)
  {
    'a' <= c <= 'z' || 'A' <= c <= 'Z'
  }

  predicate IsSchemeChar(c: char)
  {
    IsAsciiLetter(c) || '0' <= c <= '9' || c == '+' || c == '-' || c == '.'
  }

  /** The schemes whose paths `urlparse` splits `;params` off (the empty
      scheme included). */
  predicate UsesParams(scheme: string)
  {
    scheme in ["", "ftp", "hdl", "prospero", "http", "imap", "https", "shttp", "rtsp",
               "rtsps", "rtspu", "sip", "sips", "mms", "sftp", "tel"]
  }

  /** The scheme (lower-cased) and the rest: text before the first ':' when
      it starts with a letter and has only scheme characters. */
  function SplitScheme(url: string): (r: (string, string))
    ensures r.0 == "" ==> r.1 == url
    ensures |r.1| <= |url| && r.1 == url[|url| - |r.1|..]
  {
    var i := FirstWhere(url, 0, c => c == ':');
    if 0 < i < |url| && IsAsciiLetter(url[0]) && forall k :: 0 <= k < i ==> IsSchemeChar(url[k])
    then (Lower(url[..i]), url[i + 1..])
    else ("", url)
  }

  /** The text before the first occurrence of `c`. */
  function Before(s: string, c: char): (r: string)
    ensures c !in r && StartsWith(s, r)
    ensures c in s ==> |r| < |s| && s[|r|] == c
    ensures c !in s ==> r == s
  {
    var i := FirstWhere(s, 0, x => x == c);
    assert forall k :: 0 <= k < i ==> s[..i][k] == s[k];
    if i < |s| then s[..i] else s
  }

  /** The characters `urlsplit` strips from the front of a URL: the C0
      controls and the space. */
  predicate LeadingJunk(c: char)
  {
    c <= ' '
  }

  /** The characters `urlsplit` removes wherever they are: tab, CR, LF. */
  predicate UnsafeUrlChar(c: char)
  {
    c == '\t' || c == '\r' || c == '\n'
  }

  predicate NoUnsafe(s: string)
  {
    forall k :: 0 <= k < |s| ==> !UnsafeUrlChar(s[k])
  }

  /** `url.lstrip(...)` of the C0 controls and the space. */
  function LStripJunk(s: string): (r: string)
    ensures |r| <= |s| && r == s[|s| - |r|..]
    ensures r == [] || !LeadingJunk(r[0])
    ensures forall k :: 0 <= k < |s| - |r| ==> LeadingJunk(s[k])
  {
    if s != [] && LeadingJunk(s[0]) then
      var r := LStripJunk(s[1..]);
      assert s[1..][|s| - 1 - |r|..] == s[|s| - |r|..];
      r
    else s
  }

  /** Every tab, CR and LF removed, the other characters kept in order. */
  function RemoveUnsafe(s: string): (r: string)
    ensures NoUnsafe(r)
    ensures NoUnsafe(s) ==> r == s
    ensures |r| <= |s|
  {
    if s == [] then []
    else
      var tail := RemoveUnsafe(s[1..]);
      assert NoUnsafe(s) ==> NoUnsafe(s[1..]) by {
        if NoUnsafe(s) {
          forall k | 0 <= k < |s[1..]| ensures !UnsafeUrlChar(s[1..][k]) {
            assert s[1..][k] == s[k + 1];
          }
        }
      }
      if UnsafeUrlChar(s[0]) then tail
      else
        assert forall k :: 1 <= k < |[s[0]] + tail| ==> ([s[0]] + tail)[k] == tail[k - 1];
        [s[0]] + tail
  }

  /** Removal works piece by piece. */
  lemma {:induction false} RemoveUnsafeConcat(a: string, b: string)
    ensures RemoveUnsafe(a + b) == RemoveUnsafe(a) + RemoveUnsafe(b)
    decreases |a|
  {
    if a != [] {
      assert (a + b)[1..] == a[1..] + b;
      RemoveUnsafeConcat(a[1..], b);
    } else {
      assert a + b == b;
    }
  }

  /** What `urlsplit` parses: the URL with its leading junk stripped and
      every tab, CR and LF removed. */
  function CleanUrl(url: string): (r: string)
    ensures NoUnsafe(r)
  {
    RemoveUnsafe(LStripJunk(url))
  }

  /** A URL that starts with a visible character and has no tab, CR or LF
      is parsed as it is. */
  lemma CleanUrlKeeps(url: string)
    requires url != [] && !LeadingJunk(url[0]) && NoUnsafe(url)
    ensures CleanUrl(url) == url
  {
  }

  /** The end of `//netloc`: the first '/', '?' or '#' after the slashes. */
  function NetlocEnd(rest: string): nat
    requires StartsWith(rest, "//")
  {
    FirstWhere(rest, 2, c => c == '/' || c == '?' || c == '#')
  }

  /** The network location after `//`, or "" when there is none. */
  function Netloc(rest: string): string
  {
    if StartsWith(rest, "//") then rest[2..NetlocEnd(rest)] else ""
  }

  /** What follows `//netloc`, or the text itself without a netloc. */
  function AfterNetloc(rest: string): (r: string)
    ensures |r| <= |rest| && r == rest[|rest| - |r|..]
  {
    if StartsWith(rest, "//") then rest[NetlocEnd(rest)..] else rest
  }

  /** The test that makes `urlsplit` raise: a network location with a '['
      and no ']', or a ']' and no '['. */
  predicate UnbalancedBrackets(netloc: string)
  {
    ('[' in netloc) != (']' in netloc)
  }

  /** The text of that `ValueError`. */
  const InvalidIPv6: string := "Invalid IPv6 URL"

  /** The `;params` cut: from the first ';' after the last '/'. */
  function CutParams(scheme: string, path: string): (p: string)
    ensures StartsWith(path, p)
  {
    if UsesParams(scheme) && ';' in path then
      var slash := LastIndexOf(path, '/');
      var from := if slash < 0 then 0 else slash;
      var semi := FirstWhere(path, from, c => c == ';');
      path[..semi]
    else path
  }

  /** `urlparse(url).path`: on the cleaned URL, after the scheme and
      `//netloc`, up to the fragment and the query, with `;params` of the
      last segment cut for the schemes that have them; the `ValueError`
      "Invalid IPv6 URL" when the network location's brackets do not
      pair up. The path never holds '?' or '#'. */
  function UrlPath(url: string): (r: Result<string, string>)
    ensures r.Err? <==> UnbalancedBrackets(Netloc(SplitScheme(CleanUrl(url)).1))
    ensures r.Err? ==> r.error == InvalidIPv6
    ensures r.Ok? ==> '?' !in r.value && '#' !in r.value
  {
    var split := SplitScheme(CleanUrl(url));
    if UnbalancedBrackets(Netloc(split.1)) then Err(InvalidIPv6)
    else Ok(PathOf(split.0, split.1))
  }

  /** The path part of what follows the scheme: after `//netloc`, up to
      the fragment and the query, with `;params` cut. */
  function PathOf(scheme: string, rest: string): (p: string)
    ensures '?' !in p && '#' !in p
  {
    var path := Before(Before(AfterNetloc(rest), '#'), '?');
    var p := CutParams(scheme, path);
    assert forall k :: 0 <= k < |p| ==> p[k] == path[k];
    p
  }

  /** A parsed path never holds a tab, CR or LF: they are removed before
      parsing. */
  lemma UrlPathClean(url: string)
    ensures UrlPath(url).Ok? ==> NoUnsafe(UrlPath(url).value)
  {
    var clean := CleanUrl(url);
    var split := SplitScheme(clean);
    var rest := split.1;
    var after := AfterNetloc(rest);
    var path := Before(Before(after, '#'), '?');
    NoUnsafeSuffix(clean, rest);
    NoUnsafeSuffix(rest, after);
    NoUnsafePrefix(after, Before(after, '#'));
    NoUnsafePrefix(Before(after, '#'), path);
    NoUnsafePrefix(path, CutParams(split.0, path));
  }

  lemma NoUnsafeSuffix(s: string, t: string)
    requires NoUnsafe(s) && |t| <= |s| && t == s[|s| - |t|..]
    ensures NoUnsafe(t)
  {
    assert forall k :: 0 <= k < |t| ==> t[k] == s[|s| - |t| + k];
  }

  lemma NoUnsafePrefix(s: string, t: string)
    requires NoUnsafe(s) && StartsWith(s, t)
    ensures NoUnsafe(t)
  {
    assert forall k :: 0 <= k < |t| ==> t[k] == s[k];
  }

  /** Tabs, CRs and LFs anywhere in a URL that starts with a visible
      character do not change its path: the URL parses as the one without
      them. */
  lemma UnsafeCharsIgnored(url: string)
    requires url != [] && !LeadingJunk(url[0])
    ensures UrlPath(url) == UrlPath(RemoveUnsafe(url))
  {
    var r := RemoveUnsafe(url);
    if !UnsafeUrlChar(url[0]) {
      assert r == [url[0]] + RemoveUnsafe(url[1..]);
    }
    assert CleanUrl(r) == r;
  }

  /** `os.path.splitext(p)`: the extension starts at the last dot of the
      final component, unless everything before that dot in the component
      is dots (a hidden file has no extension); root + ext == p. */
  function SplitExt(p: string): (r: (string, string))
    ensures r.0 + r.1 == p
    ensures r.1 == "" || (r.1[0] == '.' && '/' !in r.1 && '.' !in r.1[1..])
  {
    var sep := LastIndexOf(p, '/');
    var dot := LastIndexOf(p, '.');
    if dot > sep && exists k :: sep < k < dot && p[k] != '.' then
      assert forall k :: dot < k < |p| ==> p[k] != '/' && p[k] != '.';
      assert forall k :: 1 <= k < |p[dot..]| ==> p[dot..][k] == p[dot + k];
      (p[..dot], p[dot..])
    else (p, "")
  }

  /** The part after the last dot is taken apart from the root. */
  lemma SplitExtExamples()
    ensures SplitExt("/a/b.tar.gz") == ("/a/b.tar", ".gz")
    ensures SplitExt("/a/.bashrc") == ("/a/.bashrc", "")
    ensures SplitExt("/a.d/file") == ("/a.d/file", "")
    ensures SplitExt("/a/file.") == ("/a/file", ".")
  {
    var p := "/a/b.tar.gz";
    LastIndexOfIs(p, '/', 2);
    LastIndexOfIs(p, '.', 8);
    assert 2 < 3 < 8 && p[3] != '.';
    assert p[..8] == "/a/b.tar" && p[8..] == ".gz";
    p := "/a/.bashrc";
    LastIndexOfIs(p, '/', 2);
    LastIndexOfIs(p, '.', 3);
    p := "/a.d/file";
    LastIndexOfIs(p, '/', 4);
    LastIndexOfIs(p, '.', 2);
    p := "/a/file.";
    LastIndexOfIs(p, '/', 2);
    LastIndexOfIs(p, '.', 7);
    assert 2 < 3 < 7 && p[3] != '.';
    assert p[..7] == "/a/file" && p[7..] == ".";
  }

  // ---------------------------------------------------------------- Content-Type

  /** A Content-Type one of the substring tests recognises. */
  predicate KnownContentType(contentType: string)
  {
    Contains(contentType, "pdf") || Contains(contentType, "image/jpeg") || Contains(contentType, "image/jpg")
    || Contains(contentType, "image/png") || Contains(contentType, "image") || Contains(contentType, "html")
    || Contains(contentType, "text") || Contains(contentType, "msword") || Contains(contentType, "officedocument")
  }

  /** The extension a download is saved under: the first Content-Type test
      that matches, else the URL path's extension, else ".bin". The tests
      are case-sensitive substring tests. Only the fallback parses the URL,
      so only it can raise. */
  function ContentTypeExtension(contentType: string, url: string): (e: Result<string, string>)
    ensures e.Ok? ==> |e.value| >= 1 && e.value[0] == '.' && '/' !in e.value
    ensures e.Err? ==> e.error == InvalidIPv6
  {
    if Contains(contentType, "pdf") then Ok(".pdf")
    else if Contains(contentType, "image/jpeg") || Contains(contentType, "image/jpg") then Ok(".jpg")
    else if Contains(contentType, "image/png") then Ok(".png")
    else if Contains(contentType, "image") then Ok(".img")
    else if Contains(contentType, "html") then Ok(".html")
    else if Contains(contentType, "text") then Ok(".txt")
    else if Contains(contentType, "msword") || Contains(contentType, "officedocument") then Ok(".docx")
    else
      var path := UrlPath(url);
      if path.Err? then Err(path.error)
      else
        var ext := SplitExt(path.value).1;
        Ok(if path.value != "" && ext != "" then ext else ".bin")
  }

  /** Choosing the extension fails exactly when no Content-Type test
      matches and the URL cannot be parsed. */
  lemma ExtensionFailsIff(contentType: string, url: string)
    ensures ContentTypeExtension(contentType, url).Err? <==> !KnownContentType(contentType) && UrlPath(url).Err?
  {
  }

  /** The URL's extension is used only when no test matches, so it never
      overrides a recognised Content-Type, and the URL is then not parsed. */
  lemma UrlExtensionLast(contentType: string, url: string)
    requires KnownContentType(contentType)
    ensures ContentTypeExtension(contentType, url).Ok?
    ensures ContentTypeExtension(contentType, url).value in [".pdf", ".jpg", ".png", ".img", ".html", ".txt", ".docx"]
  {
  }

  /** For an http(s) URL whose path has no query, fragment or parameters,
      the path is everything after the host. */
  lemma UrlPathOfWebUrl(scheme: string, host: string, path: string)
    requires scheme == "http" || scheme == "https"
    requires forall k :: 0 <= k < |host| ==> host[k] != '/' && host[k] != '?' && host[k] != '#' && host[k] != ':'
    requires !UnbalancedBrackets(host) && NoUnsafe(host) && NoUnsafe(path)
    requires path == [] || path[0] == '/'
    requires '?' !in path && '#' !in path && ';' !in path
    ensures UrlPath(scheme + "://" + host + path) == Ok(path)
  {
    var url := scheme + "://" + host + path;
    var rest := "//" + host + path;
    WebUrlParts(scheme, host, path);
    assert CleanUrl(url) == url && SplitScheme(url) == (scheme, rest);
    assert !UnbalancedBrackets(Netloc(rest)) && AfterNetloc(rest) == path;
    assert Before(path, '#') == path && Before(path, '?') == path;
    assert CutParams(scheme, path) == path;
    assert PathOf(scheme, rest) == path;
  }

  /** An http(s) URL whose host has a '[' without a ']', or the reverse,
      cannot be parsed. */
  lemma UnpairedBracketRaises(scheme: string, host: string, path: string)
    requires scheme == "http" || scheme == "https"
    requires forall k :: 0 <= k < |host| ==> host[k] != '/' && host[k] != '?' && host[k] != '#'
    requires UnbalancedBrackets(host) && NoUnsafe(host) && NoUnsafe(path)
    requires path == [] || path[0] == '/'
    ensures UrlPath(scheme + "://" + host + path) == Err(InvalidIPv6)
  {
    WebUrlParts(scheme, host, path);
  }

  lemma WebUrlNoUnsafe(scheme: string, host: string, path: string)
    requires scheme == "http" || scheme == "https"
    requires NoUnsafe(host) && NoUnsafe(path)
    ensures NoUnsafe(scheme + "://" + host + path)
  {
    var url := scheme + "://" + host + path;
    forall k | 0 <= k < |url| ensures !UnsafeUrlChar(url[k]) {
      if k < |scheme| + 3 { assert url[k] == (scheme + "://")[k]; }
      else if k < |scheme| + 3 + |host| { assert url[k] == host[k - |scheme| - 3]; }
      else { assert url[k] == path[k - |scheme| - 3 - |host|]; }
    }
  }

  /** How an http(s) URL without tabs, CRs or LFs splits: its scheme, the
      host as network location, and the path after it. */
  lemma WebUrlParts(scheme: string, host: string, path: string)
    requires scheme == "http" || scheme == "https"
    requires forall k :: 0 <= k < |host| ==> host[k] != '/' && host[k] != '?' && host[k] != '#'
    requires NoUnsafe(host) && NoUnsafe(path)
    requires path == [] || path[0] == '/'
    ensures var url := scheme + "://" + host + path;
            CleanUrl(url) == url && SplitScheme(url) == (scheme, "//" + host + path)
            && Netloc("//" + host + path) == host && AfterNetloc("//" + host + path) == path
  {
    var url := scheme + "://" + host + path;
    WebUrlNoUnsafe(scheme, host, path);
    assert url[0] == scheme[0];
    CleanUrlKeeps(url);
    SchemeOfWebUrl(scheme, host + path);
    assert url == scheme + "://" + (host + path);
    assert "//" + (host + path) == "//" + host + path;
    NetlocOfWebUrl(host, path);
  }

  lemma SchemeOfWebUrl(scheme: string, rest: string)
    requires scheme == "http" || scheme == "https"
    ensures SplitScheme(scheme + "://" + rest) == (scheme, "//" + rest)
  {
    assert scheme + "://" + rest == scheme + ":" + ("//" + rest);
    SchemeSplits(scheme, "//" + rest);
  }

  /** A lower-case scheme followed by ':' splits off. */
  lemma SchemeSplits(scheme: string, tail: string)
    requires scheme != [] && IsAsciiLetter(scheme[0])
    requires forall k :: 0 <= k < |scheme| ==> IsSchemeChar(scheme[k]) && scheme[k] != ':' && LowerChar(scheme[k]) == scheme[k]
    ensures SplitScheme(scheme + ":" + tail) == (scheme, tail)
  {
    var url := scheme + ":" + tail;
    var n := |scheme|;
    assert url[n] == ':';
    assert forall k :: 0 <= k < n ==> url[k] == scheme[k];
    FirstWhereIs(url, 0, c => c == ':', n);
    assert url[..n] == scheme;
    assert Lower(scheme) == scheme;
    assert url[n + 1..] == tail;
  }

  lemma NetlocOfWebUrl(host: string, path: string)
    requires forall k :: 0 <= k < |host| ==> host[k] != '/' && host[k] != '?' && host[k] != '#'
    requires path == [] || path[0] == '/'
    ensures AfterNetloc("//" + host + path) == path
    ensures Netloc("//" + host + path) == host
  {
    var rest := "//" + host + path;
    assert StartsWith(rest, "//");
    assert forall k :: 2 <= k < 2 + |host| ==> rest[k] == host[k - 2];
    FirstWhereIs(rest, 2, c => c == '/' || c == '?' || c == '#', 2 + |host|);
    assert rest[2 + |host|..] == path;
    assert rest[2..2 + |host|] == host;
  }
}
