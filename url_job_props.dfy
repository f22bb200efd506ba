/** What the URL job promises about its checkpoints, the disk and the
    temporary file, for any download, any converter outcome and any
    export outcome. */
module UrlJobProps {
  import opened Wrappers
  import opened Paths
  import opened Disk
  import opened Models
  import opened TaskState
  import opened ImageService
  import opened Export
  import opened ConversionService
  import opened UrlJob
  import opened Runtime

  /** The checkpoints before the final one, when every stage is reached:
      downloading, converting (with the warning when the defaults are
      used) and processing. */
  function Stages(t: UrlTask, w: UrlWorld): (ws: seq<ProgressRecord>)
    ensures 3 <= |ws| <= 4
  {
    [Downloading(t.sourceUrl)] + OptionWrites(w) + [Processing]
  }

  /** The checkpoints' progress values: 10, then 30 (once or twice), then 70. */
  lemma StagesProgress(t: UrlTask, w: UrlWorld)
    ensures var ws := Stages(t, w);
            forall i :: 0 <= i < |ws| ==> ws[i].progress == (if i == 0 then 10 else if i == |ws| - 1 then 70 else 30)
  {
  }

  /** The export stage writes "complete" exactly when it does not raise. */
  lemma ExportStageWrites(t: UrlTask, w: UrlWorld, h: Host, s: Services, fs: FsState, cursor: nat, conv: Conversion, mode: ImageRefMode)
    ensures var b := Job(Exporting(conv, mode), t, w, h, s, fs, cursor);
            b.writes == (if b.failure.None? then [Complete] else []) && b.filePath.None?
  {
  }

  /** From the conversion on: "processing" once the conversion returns,
      and "complete" after it exactly when nothing raises. */
  lemma RunStageWrites(t: UrlTask, w: UrlWorld, h: Host, s: Services, fs: FsState, cursor: nat, options: ConversionOptions)
    ensures var b := Job(Running(options), t, w, h, s, fs, cursor);
            (b.failure.None? ==> b.writes == [Processing, Complete])
            && (b.failure.Some? ==> b.writes == [] || b.writes == [Processing])
  {
    var conv := w.convert(s.decide(options));
    if conv.Ok? {
      ExportStageWrites(t, w, h, s, fs, cursor, conv.value, options.imageExportMode);
    }
  }

  /** From the temporary file on: the writes after "downloading". */
  lemma SaveStageWrites(t: UrlTask, w: UrlWorld, h: Host, s: Services, fs: FsState, cursor: nat, d: Download)
    ensures var b := Job(Saving(d), t, w, h, s, fs, cursor);
            (b.failure.None? ==> b.writes == OptionWrites(w) + [Processing, Complete])
            && (b.failure.Some? ==> b.writes == [] || b.writes == OptionWrites(w) || b.writes == OptionWrites(w) + [Processing])
  {
    var file := TempFileFor(w, d, t.sourceUrl);
    if file.Ok? && WriteFile(fs, file.value, Blob([])).0 && w.tempWriteOk {
      var tmp := file.value;
      var created := WriteFile(fs, tmp, Blob([]));
      var saved := WriteFile(created.1, tmp, Blob(d.content)).1;
      RunStageWrites(t, w, h, s, saved, cursor, JobOptions(w));
      var r := Job(Running(JobOptions(w)), t, w, h, s, saved, cursor);
      if r.writes == [] {
        assert OptionWrites(w) + r.writes == OptionWrites(w);
      }
    }
  }

  /** The try block writes a prefix of the stages, and all of them with
      "complete" after exactly when it does not raise. */
  lemma BodyWrites(t: UrlTask, w: UrlWorld, h: Host, s: Services, fs: FsState, cursor: nat)
    ensures var b := Job(Fetching, t, w, h, s, fs, cursor);
            var start := [Downloading(t.sourceUrl)];
            (b.failure.None? ==> b.writes == Stages(t, w) + [Complete])
            && (b.failure.Some? ==> b.writes == start || b.writes == start + OptionWrites(w) || b.writes == Stages(t, w))
  {
    if w.download.Ok? {
      SaveStageWrites(t, w, h, s, fs, cursor, w.download.value);
      var start := [Downloading(t.sourceUrl)];
      var b := Job(Saving(w.download.value), t, w, h, s, fs, cursor);
      if b.writes == [] {
        assert start + b.writes == start;
      }
    }
  }

  /** A successful job writes downloading, converting, the warning when
      the options fell back to the defaults, processing and complete, in
      that order and nothing else. */
  lemma SuccessfulJobWrites(t: UrlTask, w: UrlWorld, h: Host, s: Services, fs: FsState, cursor: nat)
    requires Job(Fetching, t, w, h, s, fs, cursor).failure.None?
    ensures UrlJobSpec(t, w, h, s, fs, cursor).writes
            == [Downloading(t.sourceUrl), Converting] + (if w.parsedOptions.None? then [DefaultsWarning] else [])
               + [Processing, Complete]
  {
    BodyWrites(t, w, h, s, fs, cursor);
    StagesSpelled(t, w);
  }

  lemma StagesSpelled(t: UrlTask, w: UrlWorld)
    ensures Stages(t, w) + [Complete]
            == [Downloading(t.sourceUrl), Converting] + (if w.parsedOptions.None? then [DefaultsWarning] else [])
               + [Processing, Complete]
  {
  }

  /** Every job ends with one final checkpoint: "complete" when nothing
      raised, otherwise the error record carrying the exception's text;
      the first checkpoint is always "downloading". */
  lemma JobEnds(t: UrlTask, w: UrlWorld, h: Host, s: Services, fs: FsState, cursor: nat)
    ensures var b := Job(Fetching, t, w, h, s, fs, cursor);
            var ws := UrlJobSpec(t, w, h, s, fs, cursor).writes;
            ws[0] == Downloading(t.sourceUrl)
            && ws[|ws| - 1] == (if b.failure.None? then Complete else Failed(b.failure.value))
            && (ws[|ws| - 1].status == "complete" <==> b.failure.None?)
  {
    BodyWrites(t, w, h, s, fs, cursor);
  }

  /** Any prefix of the stages followed by a final checkpoint rises. */
  lemma {:induction false} StagesRise(t: UrlTask, w: UrlWorld, k: nat, last: ProgressRecord)
    requires 1 <= k <= |Stages(t, w)| && last.progress == 100
    ensures Rising(Stages(t, w)[..k] + [last])
  {
    var full := Stages(t, w);
    var ws := full[..k] + [last];
    StagesProgress(t, w);
    assert forall i :: 0 <= i < k ==> ws[i] == full[i];
    assert ws[k] == last;
  }

  /** The progress value never goes down, and only the final checkpoint
      reaches 100. */
  lemma ProgressRises(t: UrlTask, w: UrlWorld, h: Host, s: Services, fs: FsState, cursor: nat)
    ensures Rising(UrlJobSpec(t, w, h, s, fs, cursor).writes)
  {
    var b := Job(Fetching, t, w, h, s, fs, cursor);
    var full := Stages(t, w);
    BodyWrites(t, w, h, s, fs, cursor);
    if b.failure.None? {
      assert b.writes == full[..|full|] + [Complete];
      StagesRise(t, w, |full|, Complete);
    } else {
      var k := |b.writes|;
      assert b.writes == full[..k];
      StagesRise(t, w, k, Failed(b.failure.value));
    }
  }

  /** A failed download touches neither the disk nor the uuid supply: the
      job writes "downloading" and the error record. */
  lemma FailedDownload(t: UrlTask, w: UrlWorld, h: Host, s: Services, fs: FsState, cursor: nat)
    requires w.download.Err?
    ensures UrlJobSpec(t, w, h, s, fs, cursor)
            == JobOutcome([Downloading(t.sourceUrl), Failed(w.download.error)], fs, cursor)
  {
  }

  /** A response whose Content-Type no test recognises, from a URL whose
      network location has an unpaired bracket: parsing the URL for its
      extension raises, nothing is saved and the job records the
      `ValueError` text. */
  lemma UnparsableUrlJob(t: UrlTask, w: UrlWorld, h: Host, s: Services, fs: FsState, cursor: nat)
    requires w.download.Ok? && !KnownContentType(w.download.value.contentType)
    requires UrlPath(t.sourceUrl).Err?
    ensures UrlJobSpec(t, w, h, s, fs, cursor)
            == JobOutcome([Downloading(t.sourceUrl), Failed(InvalidIPv6)], fs, cursor)
  {
    ExtensionFailsIff(w.download.value.contentType, t.sourceUrl);
    var b := Job(Saving(w.download.value), t, w, h, s, fs, cursor);
    assert b == Body([], fs, cursor, Some(InvalidIPv6), None);
    assert [Downloading(t.sourceUrl)] + b.writes == [Downloading(t.sourceUrl)];
  }

  /** Once the downloaded body is in the temporary file, the file is gone
      at the end of the job, whatever happened after. */
  lemma TempFileRemoved(t: UrlTask, w: UrlWorld, h: Host, s: Services, fs: FsState, cursor: nat)
    requires w.download.Ok?
    requires TempFileFor(w, w.download.value, t.sourceUrl).Ok?
    requires fs.Writable(TempFileFor(w, w.download.value, t.sourceUrl).value)
    requires w.tempWriteOk
    ensures TempFileFor(w, w.download.value, t.sourceUrl).value
            !in UrlJobSpec(t, w, h, s, fs, cursor).fs.files
  {
  }

  /** When writing the body to the temporary file raises, `file_path` is
      still unbound, so the empty file that `NamedTemporaryFile` created
      stays on disk. */
  lemma TempFileLeak(t: UrlTask, w: UrlWorld, h: Host, s: Services, fs: FsState, cursor: nat)
    requires w.download.Ok?
    requires TempFileFor(w, w.download.value, t.sourceUrl).Ok?
    requires fs.Writable(TempFileFor(w, w.download.value, t.sourceUrl).value)
    requires !w.tempWriteOk
    ensures var tmp := TempFileFor(w, w.download.value, t.sourceUrl).value;
            var o := UrlJobSpec(t, w, h, s, fs, cursor);
            tmp in o.fs.files && o.fs.files[tmp] == Blob([])
            && o.writes == [Downloading(t.sourceUrl), Failed("cannot write " + tmp)]
  {
  }

  /** A conversion that raises ends the job before the "processing"
      checkpoint: nothing is exported and only the temporary file, now
      removed, was written. */
  lemma FailedConversion(t: UrlTask, w: UrlWorld, h: Host, s: Services, fs: FsState, cursor: nat)
    requires w.download.Ok? && w.tempWriteOk
    requires TempFileFor(w, w.download.value, t.sourceUrl).Ok?
    requires fs.Writable(TempFileFor(w, w.download.value, t.sourceUrl).value)
    requires w.convert(s.decide(JobOptions(w))).Err?
    ensures var tmp := TempFileFor(w, w.download.value, t.sourceUrl).value;
            var o := UrlJobSpec(t, w, h, s, fs, cursor);
            o.writes == [Downloading(t.sourceUrl)] + OptionWrites(w) + [Failed(w.convert(s.decide(JobOptions(w))).error)]
            && o.fs.files == fs.files - {tmp} && o.cursor == cursor
  {
    var tmp := TempFileFor(w, w.download.value, t.sourceUrl).value;
    FailedConversionBody(t, w, h, s, fs, cursor);
    var b := Job(Fetching, t, w, h, s, fs, cursor);
    assert RemoveFile(b.fs, tmp).files == fs.files - {tmp};
  }

  /** The try block of a job whose conversion raises: the temporary file
      holds the body and is still bound. */
  lemma FailedConversionBody(t: UrlTask, w: UrlWorld, h: Host, s: Services, fs: FsState, cursor: nat)
    requires w.download.Ok? && w.tempWriteOk
    requires TempFileFor(w, w.download.value, t.sourceUrl).Ok?
    requires fs.Writable(TempFileFor(w, w.download.value, t.sourceUrl).value)
    requires w.convert(s.decide(JobOptions(w))).Err?
    ensures var d := w.download.value;
            var tmp := TempFileFor(w, d, t.sourceUrl).value;
            var b := Job(Fetching, t, w, h, s, fs, cursor);
            b.writes == [Downloading(t.sourceUrl)] + OptionWrites(w)
            && b.failure == Some(w.convert(s.decide(JobOptions(w))).error)
            && b.filePath == Some(tmp) && b.cursor == cursor
            && b.fs.files == fs.files[tmp := Blob(d.content)]
  {
    var d := w.download.value;
    var tmp := TempFileFor(w, d, t.sourceUrl).value;
    var created := WriteFile(fs, tmp, Blob([]));
    var saved := WriteFile(created.1, tmp, Blob(d.content)).1;
    var r := Job(Running(JobOptions(w)), t, w, h, s, saved, cursor);
    assert r == Body([], saved, cursor, Some(w.convert(s.decide(JobOptions(w))).error), None);
    assert OptionWrites(w) + r.writes == OptionWrites(w);
    assert Job(Saving(d), t, w, h, s, fs, cursor) == Job(Preparing(tmp), t, w, h, s, saved, cursor);
  }
}
