/** The conversion endpoints. `convert_url` checks the source URL, names
    the output and queues the URL job; `batch_convert` converts the
    uploaded files one after the other, keeps a result per file, and ends
    with a status for the whole batch. */
module ConversionRouter {
  import opened Wrappers
  import opened Strings
  import opened Paths
  import opened Disk
  import opened Models
  import opened TaskState
  import opened ImageService
  import opened FileService
  import opened Export
  import opened ConversionService
  import opened Runtime
  import UrlJob

  /** An error response: the HTTP status and the detail text. */
  datatype HttpError = HttpError(status: int, detail: string)

  // ---------------------------------------------------------------- convert_url

  /** The source starts with one of the two accepted schemes. */
  predicate WebUrl(source: string)
  {
    StartsWith(source, "http://") || StartsWith(source, "https://")
  }

  const InvalidUrl: string := "無效的URL格式。URL必須以 http:// 或 https:// 開頭。"
  const UrlFallbackName: string := "document_from_url"
  const Queued: ProgressRecord := ProgressRecord(0, "queued", "已加入佇列，準備下載")

  /** The name an unnamed output is derived from: the last segment of the
      URL's path, or "document_from_url" when that segment is empty; the
      parse's `ValueError` when the URL cannot be parsed. */
  function UrlBaseName(source: string): (b: Result<string, string>)
    ensures b.Err? <==> UrlPath(source).Err?
    ensures b.Ok? ==> b.value != "" && '/' !in b.value
    ensures b.Ok? && (UrlPath(source).value == "" || Name(UrlPath(source).value) == "") ==> b.value == UrlFallbackName
  {
    FallbackIsName();
    BaseNameOf(UrlPath(source))
  }

  /** The base name chosen from a parsed path, or the parse's exception. */
  function BaseNameOf(path: Result<string, string>): Result<string, string>
  {
    if path.Err? then Err(path.error)
    else if path.value != "" && Name(path.value) != "" then Ok(Name(path.value))
    else Ok(UrlFallbackName)
  }

  /** The answer the web framework gives for an exception the endpoint
      does not catch. */
  const ServerError: HttpError := HttpError(500, "Internal Server Error")

  /** No output extension contains a separator. */
  lemma ExtensionIsName(format: RequestFormat)
    ensures '/' !in FileExtension(format)
  {
  }

  lemma FallbackIsName()
    ensures '/' !in UrlFallbackName
  {
  }

  /** `final_output_filename`: a given name with the format's extension
      ensured, otherwise the name of the path `determine_output_path`
      chooses for the base name; `hex` is the uuid it draws. */
  function UrlOutputName(source: string, outputFilename: Option<string>, format: string, outputDir: string, hex: string): (n: Result<string, string>)
    ensures n.Err? <==> !Given(outputFilename) && UrlPath(source).Err?
    ensures Given(outputFilename) ==> n.Ok? && EndsWith(n.value, FileExtension(format))
    ensures Given(outputFilename) && EndsWith(outputFilename.value, FileExtension(format)) ==> n == Ok(outputFilename.value)
  {
    if !Given(outputFilename) then
      var base := UrlBaseName(source);
      if base.Err? then Err(base.error) else Ok(Name(OutputPath(outputDir, base.value, format, None, hex)))
    else Ok(WithExtension(outputFilename.value, FileExtension(format)))
  }

  /** Without a given name the output is the base name's stem, '_', the
      uuid's hex digits and the format's extension. */
  lemma UrlOutputNameSynthesised(source: string, format: RequestFormat, outputDir: string, hex: string, given: Option<string>)
    requires UuidHex(hex) && !Given(given)
    ensures UrlBaseName(source).Ok? ==>
              UrlOutputName(source, given, format, outputDir, hex)
              == Ok(Stem(UrlBaseName(source).value) + "_" + hex + FileExtension(format))
  {
    var base := UrlBaseName(source);
    if base.Ok? {
      LastIndexOfIs(base.value, '/', -1);
      SynthesisedOutputName(base.value, format, outputDir, hex);
    }
  }

  /** The name `determine_output_path` synthesises: the stem of the
      original file's name, '_', the hex digits and the extension. */
  lemma SynthesisedOutputName(original: string, format: RequestFormat, outputDir: string, hex: string)
    requires UuidHex(hex)
    ensures Name(OutputPath(outputDir, original, format, None, hex)) == Stem(Name(original)) + "_" + hex + FileExtension(format)
  {
    SynthesisedName(original, format, hex);
    var stem := Stem(Name(original));
    var ext := FileExtension(format);
    var n := stem + "_" + hex + ext;
    StemHasNoSeparator(Name(original));
    HexHasNoSeparator(hex);
    ExtensionIsName(format);
    NotInConcat('/', stem, "_");
    NotInConcat('/', stem + "_", hex);
    NotInConcat('/', stem + "_" + hex, ext);
    NameOfJoin(outputDir, n);
    assert OutputPath(outputDir, original, format, None, hex) == Join(outputDir, n);
  }

  /** The stem of a name without separators has none. */
  lemma StemHasNoSeparator(name: string)
    requires '/' !in name
    ensures '/' !in Stem(name)
  {
    var stem := Stem(name);
    assert stem + Suffix(name) == name;
    assert forall k :: 0 <= k < |stem| ==> stem[k] == name[k];
  }

  /** Hex digits are not separators. */
  lemma HexHasNoSeparator(hex: string)
    requires UuidHex(hex)
    ensures '/' !in hex
  {
    assert forall k :: 0 <= k < |hex| ==> LowerHex(hex[k]);
  }

  /** Every name the endpoint chooses ends with the format's extension, and
      asking for that name again gives it back unchanged. */
  lemma UrlOutputNameStable(source: string, given: Option<string>, format: RequestFormat, outputDir: string, hex: string)
    requires UuidHex(hex)
    ensures var n := UrlOutputName(source, given, format, outputDir, hex);
            n.Ok? ==>
              EndsWith(n.value, FileExtension(format))
              && UrlOutputName(source, Some(n.value), format, outputDir, hex) == n
  {
    var n := UrlOutputName(source, given, format, outputDir, hex);
    var ext := FileExtension(format);
    if n.Ok? {
      if !Given(given) {
        UrlOutputNameSynthesised(source, format, outputDir, hex, given);
        var stem := Stem(UrlBaseName(source).value) + "_" + hex;
        assert n.value == stem + ext;
        assert n.value[|stem|..] == ext;
      }
      assert EndsWith(n.value, ext);
      assert Given(Some(n.value));
      assert WithExtension(n.value, ext) == n.value;
    }
  }

  /** The base name of an http(s) URL whose path ends in a named file is
      that file's name. */
  lemma WebUrlBaseName(scheme: string, host: string, dir: string, file: string)
    requires scheme == "http" || scheme == "https"
    requires forall k :: 0 <= k < |host| ==> host[k] != '/' && host[k] != '?' && host[k] != '#' && host[k] != ':'
    requires !UnbalancedBrackets(host) && NoUnsafe(host) && NoUnsafe(dir + file)
    requires dir == [] || dir[0] == '/'
    requires file != [] && '/' !in file
    requires '?' !in dir + file && '#' !in dir + file && ';' !in dir + file
    ensures UrlBaseName(scheme + "://" + host + (dir + "/" + file)) == Ok(file)
  {
    var path := dir + "/" + file;
    assert '?' !in path && '#' !in path && ';' !in path && NoUnsafe(path) by {
      assert forall k :: 0 <= k < |path| && k != |dir| ==> path[k] in dir + file;
      forall k | 0 <= k < |path| ensures !UnsafeUrlChar(path[k]) {
        if k < |dir| { assert path[k] == (dir + file)[k]; }
        else if k > |dir| { assert path[k] == (dir + file)[k - 1]; }
      }
    }
    UrlPathOfWebUrl(scheme, host, path);
    SegmentBaseName(scheme + "://" + host + path, dir, file);
  }

  /** A URL whose path ends in a named segment has that segment as its
      base name. */
  lemma SegmentBaseName(source: string, dir: string, file: string)
    requires UrlPath(source) == Ok(dir + "/" + file)
    requires file != [] && '/' !in file
    ensures UrlBaseName(source) == Ok(file)
  {
    SegmentName(dir, file);
  }

  /** The name of a path ending in `/file` is `file`. */
  lemma SegmentName(dir: string, file: string)
    requires file != [] && '/' !in file
    ensures BaseNameOf(Ok(dir + "/" + file)) == Ok(file)
  {
    var path := dir + "/" + file;
    LastIndexOfIs(path, '/', |dir|);
    assert path[|dir| + 1..] == file;
  }

  /** What the endpoint answers when it accepts the request, and the job
      it queues. */
  datatype UrlAccepted = UrlAccepted(taskId: string, outputFilename: string, job: UrlJob.UrlTask, options: ConversionOptions)

  const UrlQueuedMessage: string := "URL 轉換已加入背景佇列"

  /** `convert_url`: 422 for a source that is not http(s); otherwise a new
      task id (`str(uuid4())`), then the output name; when no name is given
      and the URL cannot be parsed the exception escapes (500) with the
      task id drawn and nothing recorded; otherwise a "queued" record for
      the task, and the job with the options given. */
  method ConvertUrl(store: TaskStore, names: NameSupply, outputDir: string, source: string, outputFilename: Option<string>,
                    format: RequestFormat, options: ConversionOptions) returns (r: Result<UrlAccepted, HttpError>)
    requires HexSupply(names.hex)
    modifies store`progress, store`writes, names
    ensures !WebUrl(source) ==>
              r == Err(HttpError(422, InvalidUrl)) && store.progress == old(store.progress)
              && store.writes == old(store.writes) && names.next == old(names.next)
    ensures WebUrl(source) && !Given(outputFilename) && UrlPath(source).Err? ==>
              r == Err(ServerError) && store.progress == old(store.progress)
              && store.writes == old(store.writes) && names.next == old(names.next) + 1
    ensures WebUrl(source) && (Given(outputFilename) || UrlPath(source).Ok?) ==>
              var id := UuidText(names.hex(old(names.next)));
              var name := UrlOutputName(source, outputFilename, format, outputDir, names.hex(old(names.next) + 1)).value;
              r == Ok(UrlAccepted(id, name, UrlJob.UrlTask(id, source, name, format), options))
              && store.progress == old(store.progress)[id := Queued]
              && store.writes == old(store.writes) + [(id, Queued)]
              && names.next == old(names.next) + (if Given(outputFilename) then 1 else 2)
  {
    if !WebUrl(source) {
      return Err(HttpError(422, InvalidUrl));
    }
    var draw := names.Fresh();
    assert UuidHex(draw);
    var id := UuidText(draw);
    var name: string;
    if !Given(outputFilename) {
      var base := UrlBaseName(source);
      if base.Err? {
        return Err(ServerError);
      }
      var hex := names.Fresh();
      name := Name(OutputPath(outputDir, base.value, format, None, hex));
    } else {
      name := WithExtension(outputFilename.value, FileExtension(format));
    }
    store.UpdateProgress(id, Queued.progress, Queued.status, Queued.message);
    r := Ok(UrlAccepted(id, name, UrlJob.UrlTask(id, source, name, format), options));
  }

  // ---------------------------------------------------------------- batch_convert

  /** An uploaded file: its name and its bytes. */
  datatype Upload = Upload(filename: string, content: seq<Byte>)

  /** What the batch meets outside the model: `UPLOADS_DIR`, the platform,
      the converter as a function of the file and of the choices it is
      built with, and the clock. */
  datatype BatchWorld = BatchWorld(uploadsDir: string, platform: Platform,
                                   convert: (Upload, ConverterChoice) -> Result<Conversion, string>, now: int)

  function FileSucceeded(filename: string, outputFilename: string): (r: FileResult)
    ensures r.originalFilename == filename && Settled(r)
  {
    FileResult(filename, "success", Some(outputFilename), None)
  }

  function FileFailed(filename: string, error: string): (r: FileResult)
    ensures r.originalFilename == filename && Settled(r)
  {
    FileResult(filename, "error", None, Some(error))
  }

  /** A result is settled: a success names its output, an error carries
      the exception's text, and nothing else is possible. */
  predicate Settled(r: FileResult)
  {
    || (r.status == "success" && r.outputFilename.Some? && r.error.None?)
    || (r.status == "error" && r.outputFilename.None? && r.error.Some?)
  }

  /** The `export_document` call for one file: the result, the format, the
      option's image mode and the output path. */
  function BatchExportCall(c: Conversion, format: string, mode: ImageRefMode, outPath: string): ExportCall
  {
    ExportCall(c.result, None, None, Some(format), mode.Value(), None, Some(outPath), None, false)
  }

  /** One file's pass through the loop: its result, the disk and the uuid
      count after it. */
  datatype FileRun = FileRun(result: FileResult, fs: FsState, cursor: nat)

  /** Where a pass stands: before saving the upload, before naming the
      output and converting, before exporting a conversion to a path, or
      before saving the metadata of an exported path. */
  datatype Stage = Saving | Converting | Exporting(outPath: string, conv: Conversion) | Recording(outPath: string)

  function StagesLeft(st: Stage): nat
  {
    match st
    case Saving => 3
    case Converting => 2
    case Exporting(_, _) => 1
    case Recording(_) => 0
  }

  /** The `try` block for one upload from a stage on: save it, name the
      output (drawing a uuid), convert, export, save the metadata. The
      first step that raises ends the pass with an error result carrying
      its text; the steps before it keep their effects. */
  function Pass(st: Stage, u: Upload, format: string, options: ConversionOptions, w: BatchWorld, h: Host, s: Services,
                hex: nat -> string, fs: FsState, cursor: nat): FileRun
    decreases StagesLeft(st), 2
  {
    match st
    case Saving => SavePass(u, format, options, w, h, s, hex, fs, cursor)
    case Converting => ConvertPass(u, format, options, w, h, s, hex, fs, cursor)
    case Exporting(outPath, conv) => ExportPass(outPath, conv, u, format, options, w, h, s, hex, fs, cursor)
    case Recording(outPath) => RecordPass(outPath, u, format, options, w, fs, cursor)
  }

  /** Saving the upload under `UPLOADS_DIR`. */
  function SavePass(u: Upload, format: string, options: ConversionOptions, w: BatchWorld, h: Host, s: Services,
                    hex: nat -> string, fs: FsState, cursor: nat): FileRun
    decreases StagesLeft(Saving), 0
  {
    var path := UploadPath(w.uploadsDir, u.filename);
    var saved := WriteFile(fs, path, Blob(u.content));
    if !saved.0 then FileRun(FileFailed(u.filename, "cannot write " + path), saved.1, cursor)
    else Pass(Converting, u, format, options, w, h, s, hex, saved.1, cursor)
  }

  /** Naming the output (one uuid drawn) and converting. */
  function ConvertPass(u: Upload, format: string, options: ConversionOptions, w: BatchWorld, h: Host, s: Services,
                       hex: nat -> string, fs: FsState, cursor: nat): FileRun
    decreases StagesLeft(Converting), 1
  {
    ConvertTo(OutputPath(h.outputDir, u.filename, format, None, hex(cursor)), u, format, options, w, h, s, hex, fs, cursor + 1)
  }

  /** Converting, once the output path is named and the uuid drawn. */
  function ConvertTo(outPath: string, u: Upload, format: string, options: ConversionOptions, w: BatchWorld, h: Host, s: Services,
                     hex: nat -> string, fs: FsState, cursor: nat): FileRun
    decreases StagesLeft(Converting), 0
  {
    match w.convert(u, s.decide(options))
    case Err(e) => FileRun(FileFailed(u.filename, e), fs, cursor)
    case Ok(conv) => Pass(Exporting(outPath, conv), u, format, options, w, h, s, hex, fs, cursor)
  }

  /** Exporting the conversion to the output path. */
  function ExportPass(outPath: string, conv: Conversion, u: Upload, format: string, options: ConversionOptions, w: BatchWorld,
                      h: Host, s: Services, hex: nat -> string, fs: FsState, cursor: nat): FileRun
    decreases StagesLeft(Exporting(outPath, conv)), 0
  {
    var ex := s.exporter(BatchExportCall(conv, format, options.imageExportMode, outPath), conv.rendering, fs, cursor);
    match ex.answer
    case Err(e) => FileRun(FileFailed(u.filename, e), ex.fs, ex.cursor)
    case Ok(_) => Pass(Recording(outPath), u, format, options, w, h, s, hex, ex.fs, ex.cursor)
  }

  /** Saving the metadata next to the output; the file's output name is
      the output path's name. */
  function RecordPass(outPath: string, u: Upload, format: string, options: ConversionOptions, w: BatchWorld,
                      fs: FsState, cursor: nat): FileRun
  {
    var record := MetadataRecord(u.filename, w.now, format, options.imageExportMode.Value());
    FileRun(FileSucceeded(u.filename, Name(outPath)), WriteFile(fs, MetadataPath(outPath), Meta(record)).1, cursor)
  }

  /** Whatever happens in a pass, its result is about its upload and is
      settled. */
  lemma {:induction false} PassSettled(st: Stage, u: Upload, format: string, options: ConversionOptions, w: BatchWorld, h: Host,
                                       s: Services, hex: nat -> string, fs: FsState, cursor: nat)
    ensures var r := Pass(st, u, format, options, w, h, s, hex, fs, cursor);
            r.result.originalFilename == u.filename && Settled(r.result)
    decreases StagesLeft(st), 2
  {
    match st
    case Saving => SaveSettled(u, format, options, w, h, s, hex, fs, cursor);
    case Converting => ConvertSettled(u, format, options, w, h, s, hex, fs, cursor);
    case Exporting(outPath, conv) => ExportSettled(outPath, conv, u, format, options, w, h, s, hex, fs, cursor);
    case Recording(_) =>
  }

  lemma {:induction false} SaveSettled(u: Upload, format: string, options: ConversionOptions, w: BatchWorld, h: Host,
                                       s: Services, hex: nat -> string, fs: FsState, cursor: nat)
    ensures var r := Pass(Saving, u, format, options, w, h, s, hex, fs, cursor);
            r.result.originalFilename == u.filename && Settled(r.result)
    decreases StagesLeft(Saving), 0
  {
    var saved := WriteFile(fs, UploadPath(w.uploadsDir, u.filename), Blob(u.content));
    if saved.0 {
      PassSettled(Converting, u, format, options, w, h, s, hex, saved.1, cursor);
    }
  }

  lemma {:induction false} ConvertSettled(u: Upload, format: string, options: ConversionOptions, w: BatchWorld, h: Host,
                                          s: Services, hex: nat -> string, fs: FsState, cursor: nat)
    ensures var r := Pass(Converting, u, format, options, w, h, s, hex, fs, cursor);
            r.result.originalFilename == u.filename && Settled(r.result)
    decreases StagesLeft(Converting), 1
  {
    ConvertToSettled(OutputPath(h.outputDir, u.filename, format, None, hex(cursor)), u, format, options, w, h, s, hex, fs, cursor + 1);
  }

  lemma {:induction false} ConvertToSettled(outPath: string, u: Upload, format: string, options: ConversionOptions, w: BatchWorld,
                                            h: Host, s: Services, hex: nat -> string, fs: FsState, cursor: nat)
    ensures var r := ConvertTo(outPath, u, format, options, w, h, s, hex, fs, cursor);
            r.result.originalFilename == u.filename && Settled(r.result)
    decreases StagesLeft(Converting), 0
  {
    var conv := w.convert(u, s.decide(options));
    if conv.Ok? {
      PassSettled(Exporting(outPath, conv.value), u, format, options, w, h, s, hex, fs, cursor);
    }
  }

  lemma {:induction false} ExportSettled(outPath: string, conv: Conversion, u: Upload, format: string, options: ConversionOptions,
                                         w: BatchWorld, h: Host, s: Services, hex: nat -> string, fs: FsState, cursor: nat)
    ensures var r := Pass(Exporting(outPath, conv), u, format, options, w, h, s, hex, fs, cursor);
            r.result.originalFilename == u.filename && Settled(r.result)
    decreases StagesLeft(Exporting(outPath, conv)), 0
  {
    var ex := s.exporter(BatchExportCall(conv, format, options.imageExportMode, outPath), conv.rendering, fs, cursor);
    if ex.answer.Ok? {
      PassSettled(Recording(outPath), u, format, options, w, h, s, hex, ex.fs, ex.cursor);
    }
  }

  /** The results of the loop over a run of uploads, in order, with the
      disk and the uuid count at its end. */
  datatype BatchRun = BatchRun(results: seq<FileResult>, fs: FsState, cursor: nat)

  function Files(us: seq<Upload>, format: string, options: ConversionOptions, w: BatchWorld, h: Host, s: Services,
                 hex: nat -> string, fs: FsState, cursor: nat): (r: BatchRun)
    ensures |r.results| == |us|
    ensures forall i :: 0 <= i < |us| ==> r.results[i].originalFilename == us[i].filename && Settled(r.results[i])
    decreases |us|
  {
    if us == [] then BatchRun([], fs, cursor)
    else
      var before := Files(us[..|us| - 1], format, options, w, h, s, hex, fs, cursor);
      var step := Pass(Saving, us[|us| - 1], format, options, w, h, s, hex, before.fs, before.cursor);
      PassSettled(Saving, us[|us| - 1], format, options, w, h, s, hex, before.fs, before.cursor);
      ResultsSnoc(us, before.results, step.result);
      BatchRun(before.results + [step.result], step.fs, step.cursor)
  }

  /** Appending the last upload's settled result keeps every result
      settled and named after its upload. */
  lemma ResultsSnoc(us: seq<Upload>, rs: seq<FileResult>, r: FileResult)
    requires us != [] && |rs| == |us| - 1
    requires forall i :: 0 <= i < |rs| ==> rs[i].originalFilename == us[..|us| - 1][i].filename && Settled(rs[i])
    requires r.originalFilename == us[|us| - 1].filename && Settled(r)
    ensures forall i :: 0 <= i < |us| ==> (rs + [r])[i].originalFilename == us[i].filename && Settled((rs + [r])[i])
  {
    forall i | 0 <= i < |us|
      ensures (rs + [r])[i].originalFilename == us[i].filename && Settled((rs + [r])[i])
    {
      if i < |rs| {
        assert us[..|us| - 1][i] == us[i];
      }
    }
  }

  /** How many results are successes. */
  function SuccessCount(rs: seq<FileResult>): (n: nat)
    ensures n <= |rs|
  {
    if rs == [] then 0
    else SuccessCount(rs[..|rs| - 1]) + (if rs[|rs| - 1].status == "success" then 1 else 0)
  }

  /** Every file succeeded exactly when the count of successes is the
      number of files. */
  lemma {:induction false} AllSucceeded(rs: seq<FileResult>)
    ensures SuccessCount(rs) == |rs| <==> forall i :: 0 <= i < |rs| ==> rs[i].status == "success"
  {
    if rs != [] {
      var init := rs[..|rs| - 1];
      AllSucceeded(init);
      assert forall i :: 0 <= i < |init| ==> init[i] == rs[i];
    }
  }

  /** The status of the batch in the progress map and in the response. */
  function FinalStatus(successes: nat, total: nat): string
  {
    if successes == total then "complete" else "partial_error"
  }

  /** The status kept in the batch record. */
  function BatchStatus(successes: nat, total: nat): string
  {
    if successes < total then "error" else "complete"
  }

  function FinalMessage(successes: nat, total: nat): string
  {
    "檔案轉換完成: 成功 " + NatText(successes) + "/" + NatText(total) + " 檔案"
    + (if successes < total then ", 失敗 " + NatText(total - successes) else "")
  }

  const BatchInit: ProgressRecord := ProgressRecord(0, "init", "初始化檔案轉換")

  function Final(successes: nat, total: nat): ProgressRecord
  {
    ProgressRecord(100, FinalStatus(successes, total), FinalMessage(successes, total))
  }

  /** `int(((i + 0.5) / n) * 100)`, computed exactly. */
  function Midpoint(i: nat, n: nat): int
    requires i < n
  {
    (2 * i + 1) * 50 / n
  }

  /** The midpoint of a file lies in [0, 100): only the final checkpoint
      of a batch reaches 100. */
  lemma MidpointBounds(i: nat, n: nat)
    requires i < n
    ensures 0 <= Midpoint(i, n) < 100
  {
    assert (2 * i + 1) * 50 < 100 * n;
    DivBelow((2 * i + 1) * 50, n, 100);
  }

  /** `a / n < q` when `a < q * n`. */
  lemma DivBelow(a: nat, n: nat, q: nat)
    requires 0 < n && a < q * n
    ensures a / n < q
  {
    var d := a / n;
    assert n * d <= a;
    assert n * (q - d) == n * q - n * d;
    PositiveFactor(n, q - d);
  }

  /** A later file never gets a smaller midpoint. */
  lemma MidpointMonotone(i: nat, j: nat, n: nat)
    requires i <= j < n
    ensures Midpoint(i, n) <= Midpoint(j, n)
  {
    DivMonotone((2 * i + 1) * 50, (2 * j + 1) * 50, n);
  }

  lemma DivMonotone(a: nat, b: nat, n: nat)
    requires a <= b && 0 < n
    ensures a / n <= b / n
  {
    var da, db := a / n, b / n;
    assert n * da <= a && b < n * db + n;
    assert n * (db + 1 - da) == n * db + n - n * da;
    PositiveFactor(n, db + 1 - da);
  }

  /** With at most 100 files, each file gets a larger midpoint than the one
      before: consecutive numerators differ by 100 >= n. */
  lemma MidpointStrict(i: nat, n: nat)
    requires i + 1 < n <= 100
    ensures Midpoint(i, n) < Midpoint(i + 1, n)
  {
    var a := (2 * i + 1) * 50;
    assert (2 * (i + 1) + 1) * 50 == a + 100;
    var q := a / n;
    assert a < n * q + n;
    assert a + 100 >= n * (q + 1);
    DivAtLeast(a + 100, n, q + 1);
  }

  /** `a / n >= q` when `a >= q * n`. */
  lemma DivAtLeast(a: nat, n: nat, q: nat)
    requires 0 < n && a >= n * q
    ensures a / n >= q
  {
    var d := a / n;
    assert a < n * d + n;
    assert n * (d + 1 - q) == n * d + n - n * q;
    PositiveFactor(n, d + 1 - q);
  }

  /** A positive product with a positive factor has a positive other factor. */
  lemma PositiveFactor(n: int, x: int)
    requires n > 0 && n * x > 0
    ensures x > 0
  {
  }

  /** With more than 100 files the midpoints can repeat: files 0 and 1 of
      a batch of 200 both report 0. */
  lemma MidpointRepeats()
    ensures Midpoint(0, 200) == Midpoint(1, 200) == 0
  {
  }

  /** The checkpoint written before file `i` of `n`. */
  function Processing(i: nat, n: nat, filename: string): ProgressRecord
    requires i < n
  {
    ProgressRecord(Midpoint(i, n), "processing", "處理檔案 " + NatText(i + 1) + "/" + NatText(n) + ": " + filename)
  }

  /** The "processing" checkpoints for a run of the uploads of a batch of
      `n` files. */
  function Announced(us: seq<Upload>, n: nat): (ws: seq<ProgressRecord>)
    requires |us| <= n
    ensures |ws| == |us| && forall i :: 0 <= i < |us| ==> ws[i] == Processing(i, n, us[i].filename)
  {
    if us == [] then []
    else Announced(us[..|us| - 1], n) + [Processing(|us| - 1, n, us[|us| - 1].filename)]
  }

  /** All the batch's checkpoints: "init", one per file, and the final one. */
  function BatchWrites(us: seq<Upload>, results: seq<FileResult>): seq<ProgressRecord>
    requires SuccessCount(results) <= |us|
  {
    [BatchInit] + Announced(us, |us|) + [Final(SuccessCount(results), |us|)]
  }

  /** The batch's progress never goes down, and only its final checkpoint
      reaches 100. */
  lemma BatchProgressRises(us: seq<Upload>, results: seq<FileResult>)
    requires SuccessCount(results) <= |us|
    ensures Rising(BatchWrites(us, results))
  {
    var a := Announced(us, |us|);
    var last := Final(SuccessCount(results), |us|);
    AnnouncedRise(us, |us|);
    assert BatchInit.progress == 0 && last.progress == 100;
    RisingBetween(BatchInit, a, last);
    assert BatchWrites(us, results) == [BatchInit] + a + [last];
  }

  /** The "processing" checkpoints stay below 100 and never go down. */
  lemma AnnouncedRise(us: seq<Upload>, n: nat)
    requires |us| <= n
    ensures RisesBelow100(Announced(us, n))
  {
    var a := Announced(us, n);
    forall k | 0 <= k < |a| ensures 0 <= a[k].progress < 100 {
      MidpointBounds(k, n);
    }
    forall k, l | 0 <= k <= l < |a| ensures a[k].progress <= a[l].progress {
      MidpointMonotone(k, l, n);
    }
  }

  /** Checkpoints whose progress stays in [0, 100) and never goes down. */
  ghost predicate RisesBelow100(a: seq<ProgressRecord>)
  {
    && (forall k :: 0 <= k < |a| ==> 0 <= a[k].progress < 100)
    && (forall k, l :: 0 <= k <= l < |a| ==> a[k].progress <= a[l].progress)
  }

  /** Checkpoints that rise below 100, between one at 0 and one at 100,
      rise. */
  lemma RisingBetween(first: ProgressRecord, a: seq<ProgressRecord>, last: ProgressRecord)
    requires first.progress == 0 && last.progress == 100
    requires RisesBelow100(a)
    ensures Rising([first] + a + [last])
  {
    var ws := [first] + a + [last];
    assert forall k :: 1 <= k <= |a| ==> ws[k] == a[k - 1];
    forall k, l | 0 <= k <= l < |ws| ensures ws[k].progress <= ws[l].progress {
      if 1 <= k <= l <= |a| {
        assert ws[k] == a[k - 1] && ws[l] == a[l - 1];
      }
    }
  }

  /** The batch is "complete" (in the final checkpoint, the response and
      the record) exactly when every file succeeded; otherwise it is
      "partial_error", and "error" in the record. */
  lemma CompleteIffAllSucceeded(results: seq<FileResult>)
    ensures var successes := SuccessCount(results);
            (FinalStatus(successes, |results|) == "complete" <==> forall i :: 0 <= i < |results| ==> results[i].status == "success")
            && (BatchStatus(successes, |results|) == "complete" <==> FinalStatus(successes, |results|) == "complete")
            && (FinalStatus(successes, |results|) != "complete" ==> FinalStatus(successes, |results|) == "partial_error" && BatchStatus(successes, |results|) == "error")
  {
    AllSucceeded(results);
  }

  /** The answer of `batch_convert`. */
  datatype BatchResponse = BatchResponse(status: string, message: string, taskId: string, totalFiles: nat, results: seq<FileResult>)

  /** One pass of the loop body, as it runs. */
  method ProcessFile(disk: FileSystem, names: NameSupply, h: Host, w: BatchWorld, u: Upload, format: string,
                     options: ConversionOptions, ghost s: Services) returns (result: FileResult)
    requires Serves(s, w.platform, h, names.hex)
    modifies disk, names
    ensures FileRun(result, disk.State(), names.next) == Pass(Saving, u, format, options, w, h, s, names.hex, old(disk.State()), old(names.next))
  {
    var saved := SaveUploadedFile(disk, w.uploadsDir, u.filename, u.content);
    if saved.Err? {
      return FileFailed(u.filename, saved.error);
    }
    result := ConvertFileM(disk, names, h, w, u, format, options, s);
  }

  method ConvertFileM(disk: FileSystem, names: NameSupply, h: Host, w: BatchWorld, u: Upload, format: string,
                      options: ConversionOptions, ghost s: Services) returns (result: FileResult)
    requires Serves(s, w.platform, h, names.hex)
    modifies disk, names
    ensures FileRun(result, disk.State(), names.next) == Pass(Converting, u, format, options, w, h, s, names.hex, old(disk.State()), old(names.next))
  {
    ghost var fs, cursor := disk.State(), names.next;
    var hex := names.Fresh();
    ConvertingNamesFirst(u, format, options, w, h, s, names.hex, fs, cursor);
    var outPath := OutputPath(h.outputDir, u.filename, format, None, hex);
    result := ConvertToM(disk, names, h, w, u, format, options, outPath, s);
  }

  method ConvertToM(disk: FileSystem, names: NameSupply, h: Host, w: BatchWorld, u: Upload, format: string,
                    options: ConversionOptions, outPath: string, ghost s: Services) returns (result: FileResult)
    requires Serves(s, w.platform, h, names.hex)
    modifies disk, names
    ensures FileRun(result, disk.State(), names.next)
            == ConvertTo(outPath, u, format, options, w, h, s, names.hex, old(disk.State()), old(names.next))
  {
    var choice := ConverterFor(w.platform, options, s);
    var conv := w.convert(u, choice);
    if conv.Err? {
      return FileFailed(u.filename, conv.error);
    }
    result := ExportFileM(disk, names, h, w, u, format, options, outPath, conv.value, s);
  }

  /** The converting stage names the output (drawing one uuid) before it
      converts. */
  lemma ConvertingNamesFirst(u: Upload, format: string, options: ConversionOptions, w: BatchWorld, h: Host, s: Services,
                             hex: nat -> string, fs: FsState, cursor: nat)
    ensures Pass(Converting, u, format, options, w, h, s, hex, fs, cursor)
            == ConvertTo(OutputPath(h.outputDir, u.filename, format, None, hex(cursor)), u, format, options, w, h, s, hex, fs, cursor + 1)
  {
  }

  method ExportFileM(disk: FileSystem, names: NameSupply, h: Host, w: BatchWorld, u: Upload, format: string,
                     options: ConversionOptions, outPath: string, conv: Conversion, ghost s: Services) returns (result: FileResult)
    requires Serves(s, w.platform, h, names.hex)
    modifies disk, names
    ensures FileRun(result, disk.State(), names.next)
            == Pass(Exporting(outPath, conv), u, format, options, w, h, s, names.hex, old(disk.State()), old(names.next))
  {
    var call := BatchExportCall(conv, format, options.imageExportMode, outPath);
    var answer := ExportAt(s, w.platform, h, call, conv.rendering, disk, names);
    if answer.Err? {
      return FileFailed(u.filename, answer.error);
    }
    ghost var exported := disk.State();
    result := RecordFileM(disk, w, u, format, options, outPath, names.next);
    assert FileRun(result, disk.State(), names.next)
           == Pass(Recording(outPath), u, format, options, w, h, s, names.hex, exported, names.next);
  }

  method RecordFileM(disk: FileSystem, w: BatchWorld, u: Upload, format: string, options: ConversionOptions, outPath: string,
                     ghost cursor: nat) returns (result: FileResult)
    modifies disk
    ensures FileRun(result, disk.State(), cursor) == RecordPass(outPath, u, format, options, w, old(disk.State()), cursor)
  {
    SaveMetadata(disk, outPath, u.filename, w.now, format, options.imageExportMode.Value());
    result := FileSucceeded(u.filename, Name(outPath));
  }

  /** One turn of the loop: the "processing" checkpoint for file `i`, the
      file's pass, and its result appended to the batch record. */
  method BatchStep(store: TaskStore, disk: FileSystem, names: NameSupply, h: Host, w: BatchWorld, id: string,
                   uploads: seq<Upload>, i: nat, format: string, options: ConversionOptions, ghost s: Services)
    returns (result: FileResult)
    requires Serves(s, w.platform, h, names.hex)
    requires i < |uploads| && id in store.batches
    modifies store, disk, names
    ensures var rec := Processing(i, |uploads|, uploads[i].filename);
            store.writes == old(store.writes) + Tagged(id, [rec])
            && store.progress == AfterWrites(old(store.progress), id, [rec])
    ensures store.batches == old(store.batches)[id := old(store.batches[id]).(results := old(store.batches[id].results) + [result])]
    ensures FileRun(result, disk.State(), names.next)
            == Pass(Saving, uploads[i], format, options, w, h, s, names.hex, old(disk.State()), old(names.next))
  {
    Checkpoint(store, id, Processing(i, |uploads|, uploads[i].filename));
    result := ProcessFile(disk, names, h, w, uploads[i], format, options, s);
    store.batches := store.batches[id := store.batches[id].(results := store.batches[id].results + [result])];
  }

  /** The run over one more upload is the run so far followed by that
      upload's pass. */
  lemma FilesSnoc(us: seq<Upload>, i: nat, format: string, options: ConversionOptions, w: BatchWorld, h: Host, s: Services,
                  hex: nat -> string, fs: FsState, cursor: nat)
    requires i < |us|
    ensures var before := Files(us[..i], format, options, w, h, s, hex, fs, cursor);
            var step := Pass(Saving, us[i], format, options, w, h, s, hex, before.fs, before.cursor);
            Files(us[..i + 1], format, options, w, h, s, hex, fs, cursor) == BatchRun(before.results + [step.result], step.fs, step.cursor)
  {
    assert us[..i + 1][..i] == us[..i];
  }

  /** The checkpoints for one more upload are those so far and its own. */
  lemma AnnouncedSnoc(us: seq<Upload>, i: nat, n: nat)
    requires i < |us| <= n
    ensures Announced(us[..i + 1], n) == Announced(us[..i], n) + [Processing(i, n, us[i].filename)]
  {
    assert us[..i + 1][..i] == us[..i];
  }

  /** The loop over the uploads, in order. */
  method RunFiles(store: TaskStore, disk: FileSystem, names: NameSupply, h: Host, w: BatchWorld, id: string,
                  uploads: seq<Upload>, format: string, options: ConversionOptions, ghost s: Services)
    returns (results: seq<FileResult>)
    requires Serves(s, w.platform, h, names.hex)
    requires id in store.batches && store.batches[id].results == []
    modifies store, disk, names
    ensures BatchRun(results, disk.State(), names.next) == Files(uploads, format, options, w, h, s, names.hex, old(disk.State()), old(names.next))
    ensures store.writes == old(store.writes) + Tagged(id, Announced(uploads, |uploads|))
    ensures store.progress == AfterWrites(old(store.progress), id, Announced(uploads, |uploads|))
    ensures store.batches == old(store.batches)[id := old(store.batches[id]).(results := results)]
  {
    var n := |uploads|;
    results := [];
    var i := 0;
    while i < n
      invariant 0 <= i <= n
      invariant BatchRun(results, disk.State(), names.next) == Files(uploads[..i], format, options, w, h, s, names.hex, old(disk.State()), old(names.next))
      invariant store.writes == old(store.writes) + Tagged(id, Announced(uploads[..i], n))
      invariant store.progress == AfterWrites(old(store.progress), id, Announced(uploads[..i], n))
      invariant store.batches == old(store.batches)[id := old(store.batches[id]).(results := results)]
    {
      ghost var announced := Announced(uploads[..i], n);
      ghost var record := old(store.batches[id]).(results := results);
      var result := BatchStep(store, disk, names, h, w, id, uploads, i, format, options, s);
      Overwrite(old(store.batches), id, record, record.(results := results + [result]));
      results := results + [result];
      LogAppend(old(store.writes), id, announced, [Processing(i, n, uploads[i].filename)]);
      AfterWritesAppend(old(store.progress), id, announced, [Processing(i, n, uploads[i].filename)]);
      FilesSnoc(uploads, i, format, options, w, h, s, names.hex, old(disk.State()), old(names.next));
      AnnouncedSnoc(uploads, i, n);
      i := i + 1;
    }
    assert uploads[..n] == uploads;
  }

  /** The end of the batch: the count of successes, the final status in
      the record and in a last checkpoint, and the response. */
  method FinishBatch(store: TaskStore, id: string, n: nat, results: seq<FileResult>) returns (resp: BatchResponse)
    requires |results| == n && id in store.batches
    modifies store`progress, store`writes, store`batches
    ensures var successes := SuccessCount(results);
            resp == BatchResponse(FinalStatus(successes, n), FinalMessage(successes, n), id, n, results)
            && store.writes == old(store.writes) + Tagged(id, [Final(successes, n)])
            && store.progress == AfterWrites(old(store.progress), id, [Final(successes, n)])
            && store.batches == old(store.batches)[id := old(store.batches[id]).(status := BatchStatus(successes, n))]
  {
    var successes := SuccessCount(results);
    var status := FinalStatus(successes, n);
    var message := FinalMessage(successes, n);
    store.batches := store.batches[id := store.batches[id].(status := BatchStatus(successes, n))];
    Checkpoint(store, id, ProgressRecord(100, status, message));
    resp := BatchResponse(status, message, id, n, results);
  }

  lemma Overwrite<K, V>(m: map<K, V>, k: K, a: V, b: V)
    ensures m[k := a][k := b] == m[k := b]
  {
  }

  /** `batch_convert`: a batch record and an "init" checkpoint under a new
      task id (`uuid4().hex`); for each file in order a "processing"
      checkpoint, the file's pass and its result appended to the record;
      then the final status in the record and in a last checkpoint. */
  method BatchConvert(store: TaskStore, disk: FileSystem, names: NameSupply, h: Host, w: BatchWorld,
                      uploads: seq<Upload>, format: RequestFormat, options: ConversionOptions, ghost s: Services)
    returns (resp: BatchResponse)
    requires Serves(s, w.platform, h, names.hex)
    modifies store, disk, names
    ensures var id := names.hex(old(names.next));
            var run := Files(uploads, format, options, w, h, s, names.hex, old(disk.State()), old(names.next) + 1);
            var successes := SuccessCount(run.results);
            var n := |uploads|;
            resp == BatchResponse(FinalStatus(successes, n), FinalMessage(successes, n), id, n, run.results)
            && store.writes == old(store.writes) + Tagged(id, BatchWrites(uploads, run.results))
            && store.progress == AfterWrites(old(store.progress), id, BatchWrites(uploads, run.results))
            && store.batches == old(store.batches)[id := BatchTask(w.now, n, run.results, options, BatchStatus(successes, n))]
            && disk.State() == run.fs && names.next == run.cursor
  {
    var id := names.Fresh();
    ghost var fs0, c0 := disk.State(), names.next;
    var n := |uploads|;
    store.batches := store.batches[id := BatchTask(w.now, n, [], options, "init")];
    Checkpoint(store, id, BatchInit);
    ghost var writes1, progress1, batches1 := store.writes, store.progress, store.batches;
    var results := RunFiles(store, disk, names, h, w, id, uploads, format, options, s);
    ghost var run := Files(uploads, format, options, w, h, s, names.hex, fs0, c0);
    assert results == run.results && disk.State() == run.fs && names.next == run.cursor;
    Overwrite(old(store.batches), id, BatchTask(w.now, n, [], options, "init"), BatchTask(w.now, n, results, options, "init"));
    assert store.batches == old(store.batches)[id := BatchTask(w.now, n, results, options, "init")];
    ghost var announced := Announced(uploads, n);
    ghost var writes2, progress2 := store.writes, store.progress;
    assert writes2 == old(store.writes) + Tagged(id, [BatchInit]) + Tagged(id, announced);
    LogAppend(old(store.writes), id, [BatchInit], announced);
    AfterWritesAppend(old(store.progress), id, [BatchInit], announced);
    assert progress2 == AfterWrites(old(store.progress), id, [BatchInit] + announced);
    resp := FinishBatch(store, id, n, results);
    ghost var successes := SuccessCount(results);
    LogAppend(old(store.writes), id, [BatchInit] + announced, [Final(successes, n)]);
    AfterWritesAppend(old(store.progress), id, [BatchInit] + announced, [Final(successes, n)]);
    assert [BatchInit] + announced + [Final(successes, n)] == BatchWrites(uploads, results);
    Overwrite(old(store.batches), id, BatchTask(w.now, n, results, options, "init"), BatchTask(w.now, n, results, options, BatchStatus(successes, n)));
  }
}
