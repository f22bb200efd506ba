/** `process_url_conversion_task`, the background job of a URL conversion:
    download, save to a temporary file, convert, export, save metadata,
    with a progress checkpoint before each stage, one error record for any
    exception, and removal of the temporary file at the end. The network,
    the temporary file's random name and the conversion library are
    inputs; the disk, the progress map and the uuid supply are the model's
    own. */
module UrlJob {
  import opened Wrappers
  import opened Strings
  import opened Paths
  import opened Disk
  import opened Models
  import opened TaskState
  import opened ImageService
  import opened FileService
  import opened Export
  import opened ConversionService
  import opened Runtime

  /** The job's arguments. */
  datatype UrlTask = UrlTask(taskId: string, sourceUrl: string, outputFilename: string, format: string)

  /** A downloaded response: its `content-type` header ("" when absent)
      and its body. */
  datatype Download = Download(contentType: string, content: seq<Byte>)

  /** What the job meets outside the model: the download (or the text of
      the exception it raised), where `NamedTemporaryFile` puts the file
      and whether writing the body to it succeeds, whether the options
      dictionary rebuilds, the platform, the converter as a function of the
      choices it is built with, and the clock. */
  datatype UrlWorld = UrlWorld(download: Result<Download, string>, tempDir: string, tempName: string,
                               tempWriteOk: bool, parsedOptions: Option<ConversionOptions>,
                               platform: Platform,
                               convert: ConverterChoice -> Result<Conversion, string>, now: int)

  /** The checkpoints, with the messages the job writes. */
  function Downloading(url: string): ProgressRecord { ProgressRecord(10, "downloading", "下載檔案中: " + url) }
  const Converting: ProgressRecord := ProgressRecord(30, "converting", "轉換檔案中...")
  const DefaultsWarning: ProgressRecord := ProgressRecord(30, "converting", "警告：使用預設轉換選項")
  const Processing: ProgressRecord := ProgressRecord(70, "processing", "處理轉換結果...")
  const Complete: ProgressRecord := ProgressRecord(100, "complete", "轉換完成")
  function Failed(message: string): ProgressRecord { ProgressRecord(100, "error", "URL轉換失敗: " + message) }

  /** The temporary file: `tmp<random><suffix>` in the temporary directory. */
  function TempPath(w: UrlWorld, ext: string): string
  {
    Join(w.tempDir, "tmp" + w.tempName + ext)
  }

  /** Where the response is saved: the temporary file under the extension
      the response implies, or the exception that choosing the extension
      raised. */
  function TempFileFor(w: UrlWorld, d: Download, url: string): Result<string, string>
  {
    var ext := ContentTypeExtension(d.contentType, url);
    if ext.Err? then Err(ext.error) else Ok(TempPath(w, ext.value))
  }

  /** The `export_document` call of the job: the result, the format, the
      option's image mode, `OUTPUT_DIR` and the path the router named. */
  function JobExportCall(t: UrlTask, c: Conversion, mode: ImageRefMode, h: Host): ExportCall
  {
    ExportCall(c.result, None, None, Some(t.format), mode.Value(), Some(h.outputDir),
               Some(Join(h.outputDir, t.outputFilename)), None, false)
  }

  /** The state at the end of the `try` block: the checkpoints written,
      the disk, the uuid count, the exception raised (if any) and
      `file_path` once it is bound. */
  datatype Body = Body(writes: seq<ProgressRecord>, fs: FsState, cursor: nat, failure: Option<string>, filePath: Option<string>)

  /** The options the job converts with: those rebuilt from the
      dictionary, or the defaults when rebuilding raised. */
  function JobOptions(w: UrlWorld): ConversionOptions
  {
    if w.parsedOptions.Some? then w.parsedOptions.value else DefaultOptions()
  }

  /** The "converting" checkpoint, and the warning when the defaults are
      used. */
  function OptionWrites(w: UrlWorld): seq<ProgressRecord>
  {
    if w.parsedOptions.Some? then [Converting] else [Converting, DefaultsWarning]
  }

  /** Where the `try` block of the job stands: before the download, with
      the response in hand, with the body in the temporary file `tmp`,
      with the options chosen, with the conversion done. */
  datatype Phase =
    | Fetching
    | Saving(d: Download)
    | Preparing(tmp: string)
    | Running(options: ConversionOptions)
    | Exporting(conv: Conversion, mode: ImageRefMode)

  /** How many phases are left after this one. */
  function Remaining(p: Phase): nat
  {
    match p
    case Fetching => 4
    case Saving(_) => 3
    case Preparing(_) => 2
    case Running(_) => 1
    case Exporting(_, _) => 0
  }

  /** The `try` block of the job from a phase on: the checkpoints written,
      the disk, the uuid count, the exception raised (if any) and
      `file_path` once it is bound.
      - Fetching: the "downloading" checkpoint; a failed download raises.
      - Saving: `NamedTemporaryFile` creates the file under the extension
        the response implies, and the body is written into it; either
        step can raise, and `file_path` is bound only after the write.
      - Preparing: the "converting" checkpoint, and the warning when the
        options fall back to the defaults.
      - Running: `run_conversion` with the converter for the options (its
        exception re-raised as it is), then the "processing" checkpoint.
      - Exporting: a raised export ends the block; otherwise the metadata
        is saved (a failed write is swallowed) and the job records
        completion. */
  function Job(p: Phase, t: UrlTask, w: UrlWorld, h: Host, s: Services, fs: FsState, cursor: nat): (b: Body)
    ensures p.Fetching? ==> b.writes != [] && b.writes[0] == Downloading(t.sourceUrl)
    ensures p.Preparing? ==> b.filePath == Some(p.tmp)
    ensures p.Running? || p.Exporting? ==> b.filePath.None?
    decreases Remaining(p)
  {
    match p
    case Fetching =>
      var start := [Downloading(t.sourceUrl)];
      if w.download.Err? then Body(start, fs, cursor, Some(w.download.error), None)
      else
        var b := Job(Saving(w.download.value), t, w, h, s, fs, cursor);
        b.(writes := start + b.writes)
    case Saving(d) =>
      var file := TempFileFor(w, d, t.sourceUrl);
      if file.Err? then Body([], fs, cursor, Some(file.error), None)
      else
        var tmp := file.value;
        var created := WriteFile(fs, tmp, Blob([]));
        if !created.0 then Body([], fs, cursor, Some("cannot write " + tmp), None)
        else if !w.tempWriteOk then Body([], created.1, cursor, Some("cannot write " + tmp), None)
        else Job(Preparing(tmp), t, w, h, s, WriteFile(created.1, tmp, Blob(d.content)).1, cursor)
    case Preparing(tmp) =>
      var b := Job(Running(JobOptions(w)), t, w, h, s, fs, cursor);
      b.(writes := OptionWrites(w) + b.writes, filePath := Some(tmp))
    case Running(options) =>
      var conv := w.convert(s.decide(options));
      if conv.Err? then Body([], fs, cursor, Some(conv.error), None)
      else
        var b := Job(Exporting(conv.value, options.imageExportMode), t, w, h, s, fs, cursor);
        b.(writes := [Processing] + b.writes)
    case Exporting(conv, mode) =>
      var ex := s.exporter(JobExportCall(t, conv, mode, h), conv.rendering, fs, cursor);
      if ex.answer.Err? then Body([], ex.fs, ex.cursor, Some(ex.answer.error), None)
      else
        var out := Join(h.outputDir, t.outputFilename);
        var saved := WriteFile(ex.fs, MetadataPath(out), Meta(MetadataRecord(t.sourceUrl, w.now, t.format, mode.Value()))).1;
        Body([Complete], saved, ex.cursor, None, None)
  }

  /** The whole job: the checkpoints written, the disk and the uuid count. */
  datatype JobOutcome = JobOutcome(writes: seq<ProgressRecord>, fs: FsState, cursor: nat)

  /** The `finally` clause: the bound temporary file is removed if it is
      still a file (a failed removal is swallowed). */
  function Cleanup(fs: FsState, filePath: Option<string>): (r: FsState)
    ensures filePath.Some? ==> filePath.value !in r.files
    ensures filePath.None? ==> r == fs
  {
    if filePath.Some? && filePath.value in fs.files then RemoveFile(fs, filePath.value) else fs
  }

  /** The body, the error checkpoint of the `except` clause, the cleanup. */
  function UrlJobSpec(t: UrlTask, w: UrlWorld, h: Host, s: Services, fs: FsState, cursor: nat): (o: JobOutcome)
    ensures o.writes != []
  {
    var b := Job(Fetching, t, w, h, s, fs, cursor);
    var writes := if b.failure.Some? then b.writes + [Failed(b.failure.value)] else b.writes;
    JobOutcome(writes, Cleanup(b.fs, b.filePath), b.cursor)
  }

  // ---------------------------------------------------------------- the job, as it runs

  /** Export, metadata and the final checkpoint. */
  method ExportStageM(store: TaskStore, disk: FileSystem, names: NameSupply, h: Host, t: UrlTask, w: UrlWorld,
                      conv: Conversion, mode: ImageRefMode, ghost s: Services) returns (failure: Option<string>)
    requires Serves(s, w.platform, h, names.hex)
    modifies store`progress, store`writes, disk, names
    ensures var b := Job(Exporting(conv, mode), t, w, h, s, old(disk.State()), old(names.next));
            store.writes == old(store.writes) + Tagged(t.taskId, b.writes)
            && store.progress == AfterWrites(old(store.progress), t.taskId, b.writes)
            && disk.State() == b.fs && names.next == b.cursor && failure == b.failure
  {
    var call := JobExportCall(t, conv, mode, h);
    var answer := ExportAt(s, w.platform, h, call, conv.rendering, disk, names);
    if answer.Err? {
      assert old(store.writes) + Tagged(t.taskId, []) == old(store.writes);
      return Some(answer.error);
    }
    SaveMetadata(disk, Join(h.outputDir, t.outputFilename), t.sourceUrl, w.now, t.format, mode.Value());
    Checkpoint(store, t.taskId, Complete);
    failure := None;
  }

  /** Where the phases before the export leave the job: stopped by an
      exception, or ready to export a conversion. */
  datatype Reached = Stopped(error: string) | Ready(conv: Conversion, mode: ImageRefMode)

  /** The rest of the job after earlier checkpoints `ws`, with `file_path`
      bound as given. */
  function Resume(ws: seq<ProgressRecord>, filePath: Option<string>, b: Body): (r: Body)
    ensures r.writes == ws + b.writes && r.filePath == filePath
    ensures r.fs == b.fs && r.cursor == b.cursor && r.failure == b.failure
  {
    b.(writes := ws + b.writes, filePath := filePath)
  }

  lemma Resumed(a: seq<ProgressRecord>, b: seq<ProgressRecord>, fp: Option<string>, fp2: Option<string>, e: Body)
    ensures Resume(a, fp, Resume(b, fp2, e)) == Resume(a + b, fp, e)
  {
    assert a + (b + e.writes) == (a + b) + e.writes;
  }

  /** A phase before the export, run from `fs0` and `c0`, wrote `ws`, left
      the disk at `fs1` and the uuid count at `c1`, and either raised (the
      block ends there) or reached the export. */
  ghost predicate Led(p: Phase, t: UrlTask, w: UrlWorld, h: Host, s: Services, fs0: FsState, c0: nat,
                      ws: seq<ProgressRecord>, fs1: FsState, c1: nat, reached: Reached, filePath: Option<string>)
  {
    match reached
    case Stopped(e) => Job(p, t, w, h, s, fs0, c0) == Body(ws, fs1, c1, Some(e), filePath)
    case Ready(conv, mode) => Job(p, t, w, h, s, fs0, c0) == Resume(ws, filePath, Job(Exporting(conv, mode), t, w, h, s, fs1, c1))
  }

  /** The conversion and the "processing" checkpoint. */
  method RunPhase(store: TaskStore, disk: FileSystem, names: NameSupply, h: Host, t: UrlTask, w: UrlWorld,
                  options: ConversionOptions, ghost s: Services) returns (reached: Reached, ghost ws: seq<ProgressRecord>)
    requires Decides(s, w.platform)
    modifies store`progress, store`writes
    ensures store.writes == old(store.writes) + Tagged(t.taskId, ws)
    ensures store.progress == AfterWrites(old(store.progress), t.taskId, ws)
    ensures Led(Running(options), t, w, h, s, disk.State(), names.next, ws, disk.State(), names.next, reached, None)
  {
    var choice := ConverterFor(w.platform, options, s);
    var conv := w.convert(choice);
    if conv.Err? {
      ws := [];
      assert old(store.writes) + Tagged(t.taskId, []) == old(store.writes);
      return Stopped(conv.error), ws;
    }
    Checkpoint(store, t.taskId, Processing);
    ws := [Processing];
    reached := Ready(conv.value, options.imageExportMode);
  }

  /** The "converting" checkpoints and the options. */
  method OptionsM(store: TaskStore, t: UrlTask, w: UrlWorld) returns (options: ConversionOptions)
    modifies store`progress, store`writes
    ensures store.writes == old(store.writes) + Tagged(t.taskId, OptionWrites(w))
    ensures store.progress == AfterWrites(old(store.progress), t.taskId, OptionWrites(w))
    ensures options == JobOptions(w)
  {
    Checkpoint(store, t.taskId, Converting);
    if w.parsedOptions.Some? {
      options := w.parsedOptions.value;
    } else {
      options := DefaultOptions();
      Checkpoint(store, t.taskId, DefaultsWarning);
      AfterWritesAppend(old(store.progress), t.taskId, [Converting], [DefaultsWarning]);
      TaggedAppend(t.taskId, [Converting], [DefaultsWarning]);
      assert [Converting] + [DefaultsWarning] == [Converting, DefaultsWarning];
    }
  }

  /** The options, then the conversion. */
  method PreparePhase(store: TaskStore, disk: FileSystem, names: NameSupply, h: Host, t: UrlTask, w: UrlWorld,
                      tmp: string, ghost s: Services) returns (reached: Reached, ghost ws: seq<ProgressRecord>)
    requires Decides(s, w.platform)
    modifies store`progress, store`writes
    ensures store.writes == old(store.writes) + Tagged(t.taskId, ws)
    ensures store.progress == AfterWrites(old(store.progress), t.taskId, ws)
    ensures Led(Preparing(tmp), t, w, h, s, disk.State(), names.next, ws, disk.State(), names.next, reached, Some(tmp))
  {
    var options := OptionsM(store, t, w);
    ghost var rest;
    reached, rest := RunPhase(store, disk, names, h, t, w, options, s);
    LogAppend(old(store.writes), t.taskId, OptionWrites(w), rest);
    AfterWritesAppend(old(store.progress), t.taskId, OptionWrites(w), rest);
    ws := OptionWrites(w) + rest;
    if reached.Ready? {
      Resumed(OptionWrites(w), rest, Some(tmp), None, Job(Exporting(reached.conv, reached.mode), t, w, h, s, disk.State(), names.next));
    }
  }

  /** The temporary file: created, then written with the body. */
  method SavePhase(store: TaskStore, disk: FileSystem, names: NameSupply, h: Host, t: UrlTask, w: UrlWorld, d: Download,
                   ghost s: Services) returns (reached: Reached, filePath: Option<string>, ghost ws: seq<ProgressRecord>)
    requires Decides(s, w.platform)
    modifies store`progress, store`writes, disk
    ensures store.writes == old(store.writes) + Tagged(t.taskId, ws)
    ensures store.progress == AfterWrites(old(store.progress), t.taskId, ws)
    ensures Led(Saving(d), t, w, h, s, old(disk.State()), names.next, ws, disk.State(), names.next, reached, filePath)
  {
    var file := TempFileFor(w, d, t.sourceUrl);
    if file.Err? {
      ws := [];
      assert old(store.writes) + Tagged(t.taskId, []) == old(store.writes);
      return Stopped(file.error), None, ws;
    }
    var tmp := file.value;
    var created := disk.Write(tmp, Blob([]));
    if !created || !w.tempWriteOk {
      ws := [];
      assert old(store.writes) + Tagged(t.taskId, []) == old(store.writes);
      return Stopped("cannot write " + tmp), None, ws;
    }
    var _ := disk.Write(tmp, Blob(d.content));
    filePath := Some(tmp);
    reached, ws := PreparePhase(store, disk, names, h, t, w, tmp, s);
  }

  /** The "downloading" checkpoint and the download. */
  method FetchPhase(store: TaskStore, disk: FileSystem, names: NameSupply, h: Host, t: UrlTask, w: UrlWorld,
                    ghost s: Services) returns (reached: Reached, filePath: Option<string>, ghost ws: seq<ProgressRecord>)
    requires Decides(s, w.platform)
    modifies store`progress, store`writes, disk
    ensures store.writes == old(store.writes) + Tagged(t.taskId, ws)
    ensures store.progress == AfterWrites(old(store.progress), t.taskId, ws)
    ensures Led(Fetching, t, w, h, s, old(disk.State()), names.next, ws, disk.State(), names.next, reached, filePath)
  {
    Checkpoint(store, t.taskId, Downloading(t.sourceUrl));
    if w.download.Err? {
      return Stopped(w.download.error), None, [Downloading(t.sourceUrl)];
    }
    ghost var rest;
    reached, filePath, rest := SavePhase(store, disk, names, h, t, w, w.download.value, s);
    LogAppend(old(store.writes), t.taskId, [Downloading(t.sourceUrl)], rest);
    AfterWritesAppend(old(store.progress), t.taskId, [Downloading(t.sourceUrl)], rest);
    ws := [Downloading(t.sourceUrl)] + rest;
    if reached.Ready? {
      Resumed([Downloading(t.sourceUrl)], rest, filePath, filePath,
              Job(Exporting(reached.conv, reached.mode), t, w, h, s, disk.State(), names.next));
    }
  }

  /** The `finally` clause as it runs. */
  method CleanUp(disk: FileSystem, filePath: Option<string>)
    modifies disk
    ensures disk.State() == Cleanup(old(disk.State()), filePath)
  {
    if filePath.Some? && filePath.value in disk.files {
      disk.Remove(filePath.value);
    }
  }

  /** The `try` block as it runs: the phases before the export, then the
      export when they reach it. */
  method RunBody(store: TaskStore, disk: FileSystem, names: NameSupply, h: Host, t: UrlTask, w: UrlWorld,
                 ghost s: Services) returns (failure: Option<string>, filePath: Option<string>)
    requires Serves(s, w.platform, h, names.hex)
    modifies store`progress, store`writes, disk, names
    ensures var b := Job(Fetching, t, w, h, s, old(disk.State()), old(names.next));
            store.writes == old(store.writes) + Tagged(t.taskId, b.writes)
            && store.progress == AfterWrites(old(store.progress), t.taskId, b.writes)
            && disk.State() == b.fs && names.next == b.cursor && failure == b.failure && filePath == b.filePath
  {
    var reached;
    ghost var ws;
    reached, filePath, ws := FetchPhase(store, disk, names, h, t, w, s);
    if reached.Stopped? {
      return Some(reached.error), filePath;
    }
    ghost var fs1, c1 := disk.State(), names.next;
    failure := ExportStageM(store, disk, names, h, t, w, reached.conv, reached.mode, s);
    ghost var e := Job(Exporting(reached.conv, reached.mode), t, w, h, s, fs1, c1);
    LogAppend(old(store.writes), t.taskId, ws, e.writes);
    AfterWritesAppend(old(store.progress), t.taskId, ws, e.writes);
  }

  /** `process_url_conversion_task`: the `try` block, the error checkpoint
      when it raised, and the removal of the temporary file. */
  method ProcessUrlTask(store: TaskStore, disk: FileSystem, names: NameSupply, h: Host, t: UrlTask, w: UrlWorld,
                        ghost s: Services)
    requires Serves(s, w.platform, h, names.hex)
    modifies store`progress, store`writes, disk, names
    ensures var o := UrlJobSpec(t, w, h, s, old(disk.State()), old(names.next));
            store.writes == old(store.writes) + Tagged(t.taskId, o.writes)
            && store.progress == old(store.progress)[t.taskId := o.writes[|o.writes| - 1]]
            && disk.State() == o.fs && names.next == o.cursor
  {
    var failure, filePath := RunBody(store, disk, names, h, t, w, s);
    ghost var b := Job(Fetching, t, w, h, s, old(disk.State()), old(names.next));
    if failure.Some? {
      Checkpoint(store, t.taskId, Failed(failure.value));
      LogAppend(old(store.writes), t.taskId, b.writes, [Failed(failure.value)]);
      AfterWritesAppend(old(store.progress), t.taskId, b.writes, [Failed(failure.value)]);
    }
    CleanUp(disk, filePath);
  }
}
