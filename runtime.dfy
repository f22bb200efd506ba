/** What the background jobs and the batch endpoint share: the platform
    the converter is built on, a conversion result, the two services they
    call (the converter decisions and `export_document`) taken as functions
    tied to their models, and the progress log as a sequence of checkpoints. */
module Runtime {
  import opened Wrappers
  import opened Disk
  import opened Models
  import opened TaskState
  import opened ImageService
  import opened Export
  import opened ConversionService

  /** `platform.system() == "Darwin"` and whether `mlx_vlm` imports. */
  datatype Platform = Platform(darwin: bool, mlxImportable: bool)

  /** A conversion result: its document's id (if any) and the texts it
      renders to. */
  datatype Conversion = Conversion(result: ResultArg, rendering: Rendering)

  /** The export step as a caller sees it: the outcome of `export_document`
      for a call, the rendered texts, the disk and the uuid count. */
  type Exporter = (ExportCall, Rendering, FsState, nat) -> ExportOutcome

  /** The two services of the model that the jobs call: the converter
      decisions and `export_document`. The jobs' specifications are stated
      over them as functions; `Serves` ties them to their models. */
  datatype Services = Services(decide: ConversionOptions -> ConverterChoice, exporter: Exporter)

  /** Marks the options for which a converter is built. */
  ghost predicate DecisionPoint(o: ConversionOptions)
  {
    true
  }

  /** Marks the calls at which an export is made. */
  ghost predicate ExportPoint(c: ExportCall, r: Rendering, fs: FsState, cursor: nat)
  {
    true
  }

  /** The converter decisions are `create_converter_with_options` on the
      platform. */
  ghost predicate Decides(s: Services, p: Platform)
  {
    forall o {:trigger DecisionPoint(o)} :: DecisionPoint(o) ==> s.decide(o) == Decide(o, p.darwin, p.mlxImportable)
  }

  /** The services are `create_converter_with_options` on the platform and
      `export_document` on this host and uuid supply. */
  ghost predicate Serves(s: Services, p: Platform, h: Host, hex: nat -> string)
  {
    HexSupply(hex)
    && Decides(s, p)
    && (forall c, r, fs, cursor {:trigger ExportPoint(c, r, fs, cursor)} ::
          ExportPoint(c, r, fs, cursor) ==> s.exporter(c, r, fs, cursor) == ExportSpec(c, r, h, hex, fs, cursor))
  }

  /** The model's own services serve every platform, host and supply. */
  function ModelServices(p: Platform, h: Host, hex: nat -> string): (s: Services)
    requires HexSupply(hex)
    ensures Serves(s, p, h, hex)
  {
    Services(o => Decide(o, p.darwin, p.mlxImportable),
             (c: ExportCall, r: Rendering, fs: FsState, cursor: nat) => ExportSpec(c, r, h, hex, fs, cursor))
  }

  /** `create_converter_with_options`, as the jobs call it. */
  method ConverterFor(p: Platform, options: ConversionOptions, ghost s: Services) returns (choice: ConverterChoice)
    requires Decides(s, p)
    ensures choice == s.decide(options)
  {
    assert DecisionPoint(options);
    choice := Decide(options, p.darwin, p.mlxImportable);
  }

  /** `export_document`, as the jobs call it. */
  method ExportAt(ghost s: Services, ghost p: Platform, h: Host, c: ExportCall, r: Rendering, disk: FileSystem, names: NameSupply)
    returns (answer: Result<Exported, string>)
    requires Serves(s, p, h, names.hex)
    modifies disk, names
    ensures ExportOutcome(answer, disk.State(), names.next) == s.exporter(c, r, old(disk.State()), old(names.next))
  {
    assert ExportPoint(c, r, disk.State(), names.next);
    answer := ExportDocument(c, r, h, disk, names);
  }

  // ---------------------------------------------------------------- the progress log

  /** The progress map's view of a sequence of checkpoints for one task. */
  function Tagged(taskId: string, ws: seq<ProgressRecord>): (r: seq<(string, ProgressRecord)>)
    ensures |r| == |ws|
  {
    if ws == [] then [] else [(taskId, ws[0])] + Tagged(taskId, ws[1..])
  }

  lemma {:induction false} TaggedAppend(taskId: string, a: seq<ProgressRecord>, b: seq<ProgressRecord>)
    ensures Tagged(taskId, a + b) == Tagged(taskId, a) + Tagged(taskId, b)
  {
    if a == [] {
      assert a + b == b;
    } else {
      assert (a + b)[1..] == a[1..] + b;
      TaggedAppend(taskId, a[1..], b);
    }
  }

  /** Two runs of checkpoints appended to the log one after the other are
      the log of both runs. */
  lemma LogAppend(log: seq<(string, ProgressRecord)>, taskId: string, a: seq<ProgressRecord>, b: seq<ProgressRecord>)
    ensures log + Tagged(taskId, a) + Tagged(taskId, b) == log + Tagged(taskId, a + b)
  {
    TaggedAppend(taskId, a, b);
    assert log + Tagged(taskId, a) + Tagged(taskId, b) == log + (Tagged(taskId, a) + Tagged(taskId, b));
  }

  /** The progress map after a run of checkpoints for one task: the last
      one is the task's record. */
  function AfterWrites(progress: map<string, ProgressRecord>, taskId: string, ws: seq<ProgressRecord>): map<string, ProgressRecord>
  {
    if ws == [] then progress else progress[taskId := ws[|ws| - 1]]
  }

  lemma AfterWritesAppend(progress: map<string, ProgressRecord>, taskId: string, a: seq<ProgressRecord>, b: seq<ProgressRecord>)
    ensures AfterWrites(AfterWrites(progress, taskId, a), taskId, b) == AfterWrites(progress, taskId, a + b)
  {
    if b != [] {
      assert (a + b)[|a + b| - 1] == b[|b| - 1];
    }
  }

  // ---------------------------------------------------------------- the job, as it runs

  /** One checkpoint: `update_progress` for a task. */
  method Checkpoint(store: TaskStore, taskId: string, rec: ProgressRecord)
    modifies store`progress, store`writes
    ensures store.writes == old(store.writes) + Tagged(taskId, [rec])
    ensures store.progress == AfterWrites(old(store.progress), taskId, [rec])
  {
    store.UpdateProgress(taskId, rec.progress, rec.status, rec.message);
  }

  /** A run of checkpoints whose progress values rise (not strictly) and
      stay below 100 except at the last one, which is 100. */
  ghost predicate Rising(ws: seq<ProgressRecord>)
  {
    && (forall i, j :: 0 <= i <= j < |ws| ==> ws[i].progress <= ws[j].progress)
    && (forall i :: 0 <= i < |ws| - 1 ==> ws[i].progress < 100)
    && |ws| > 0 && ws[|ws| - 1].progress == 100
  }
}
