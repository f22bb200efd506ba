/** `export_document`: the checks on its arguments, the document and task
    ids it settles on, the output directory and path, and the dispatch by
    format that decides whether the image rewriter runs, what is written
    and what is returned. The texts the conversion library renders are
    inputs; fresh `uuid4()` values come from the same name supply the
    rewriter draws from. */
module Export {
  import opened Wrappers
  import opened Strings
  import opened Paths
  import opened Disk
  import opened ImageRewrite
  import opened ImageProps
  import opened ImageService
  import opened FileService

  /** The `result` argument: absent, an object without a `document`
      attribute, or a conversion result whose document may lack an `id`. */
  datatype ResultArg = NoResult | NoDocument | Converted(docId: Option<DocumentId>)

  /** The texts produced for the document with its images embedded, by the
      conversion result or by the document service: `json` is what an
      in-memory answer carries and `jsonFile` what `json.dump` writes. */
  datatype Rendering = Rendering(json: string, jsonFile: string, html: string, markdown: string)

  /** The keyword arguments of a call (`format` is the older name of
      `export_format`). */
  datatype ExportCall = ExportCall(result: ResultArg, documentId: Option<DocumentId>, exportFormat: Option<string>,
                                   format: Option<string>, mode: string, outDir: Option<string>,
                                   outPath: Option<string>, taskId: Option<string>, inMemory: bool)

  /** What the configuration and the runtime fix: `Config.OUTPUT_DIR`,
      `IMAGES_DIR`, the working directory and the base64 decoder. */
  datatype Host = Host(outputDir: string, imagesDir: string, cwd: string, decode: string -> Option<seq<Byte>>)

  /** The returned dictionary: `paths`, and `content` for an in-memory call. */
  datatype Exported = Exported(paths: map<string, string>, content: Option<map<string, string>>)

  /** The answer (or the exception raised), the disk afterwards and the
      number of uuid values drawn so far. */
  datatype ExportOutcome = ExportOutcome(answer: Result<Exported, string>, fs: FsState, cursor: nat)

  /** The two `ValueError` texts of the argument checks. */
  const NoDocumentError: string := "提供的 result 物件沒有 document 屬性"
  const MissingIdError: string := "必須提供 result 或 document_id 參數"

  /** Every value of the supply is a `uuid4().hex`. */
  ghost predicate HexSupply(hex: nat -> string)
  {
    forall k :: UuidHex(hex(k))
  }

  /** `export_format`, or `format` when only that one is given. */
  function EffectiveFormat(c: ExportCall): (f: Option<string>)
    ensures c.exportFormat.Some? ==> f == c.exportFormat
  {
    if c.format.Some? && c.exportFormat.None? then c.format else c.exportFormat
  }

  /** The three outputs the dispatch knows; every other format produces
      nothing. */
  datatype Kind = JsonKind | HtmlKind | MarkdownKind | NoKind
  {
    function Key(): string
    {
      match this
      case JsonKind => "json"
      case HtmlKind => "html"
      case MarkdownKind => "markdown"
      case NoKind => ""
    }

    function Ext(): string
    {
      match this
      case JsonKind => ".json"
      case HtmlKind => ".html"
      case MarkdownKind => ".md"
      case NoKind => ""
    }
  }

  function KindOf(f: Option<string>): Kind
  {
    if f == Some("json") then JsonKind
    else if f == Some("html") || f == Some("html-single") then HtmlKind
    else if f == Some("markdown") then MarkdownKind
    else NoKind
  }

  /** The number of `uuid4()` values a call draws before any output: one
      for a conversion result whose document has no id, one for a missing
      task id. */
  function IdDraws(c: ExportCall): nat
  {
    (if c.result == Converted(None) then 1 else 0) + (if c.taskId.None? then 1 else 0)
  }

  /** What a call settles on before producing output. */
  datatype Plan = Plan(docId: DocumentId, taskId: string, basename: string, outDir: string, mode: string, base: string, cursor: nat)

  /** The argument checks and the settled values: a `ValueError` when there
      is neither a result nor a document id, or the result has no document;
      otherwise the ids (drawn when missing), the short basename, the output
      directory (`out_dir_path or Config.OUTPUT_DIR`), the normalised mode
      and the `output_base_name` handed to the rewriter. */
  function Prepare(c: ExportCall, h: Host, hex: nat -> string, cursor: nat): (r: Result<Plan, string>)
    requires HexSupply(hex)
    ensures r.Err? <==> c.result == NoDocument || (c.result == NoResult && c.documentId.None?)
    ensures r.Err? ==> r.error == (if c.result == NoDocument then NoDocumentError else MissingIdError)
    ensures r.Ok? ==> r.value.cursor == cursor + IdDraws(c)
    ensures r.Ok? ==> r.value.basename == Basename(r.value.docId) && ValidMode(r.value.mode)
                      && r.value.mode == NormaliseMode(c.mode)
    ensures r.Ok? ==> r.value.base == (if Given(c.outPath) then Stem(Name(c.outPath.value)) else r.value.basename)
    ensures r.Ok? ==> r.value.outDir == (if Given(c.outDir) then c.outDir.value else h.outputDir)
    ensures r.Ok? && c.result.Converted? && c.result.docId.Some? ==> r.value.docId == c.result.docId.value
    ensures r.Ok? && c.result == NoResult ==> r.value.docId == c.documentId.value
    ensures r.Ok? && c.taskId.Some? ==> r.value.taskId == c.taskId.value
  {
    if c.result == NoDocument then Err(NoDocumentError)
    else if c.result == NoResult && c.documentId.None? then Err(MissingIdError)
    else
      var k := if c.result == Converted(None) then cursor + 1 else cursor;
      Ok(Settle(c, h, DocId(c, hex, cursor), TaskId(c, hex, k), cursor + IdDraws(c)))
  }

  /** A conversion result whose document has no id gets a fresh uuid4 as
      a `str`, so its files are named after the uuid's first eight hex
      digits. */
  lemma GeneratedIdBasename(c: ExportCall, h: Host, hex: nat -> string, cursor: nat)
    requires HexSupply(hex) && c.result == Converted(None)
    ensures Prepare(c, h, hex, cursor).Ok?
    ensures Prepare(c, h, hex, cursor).value.docId == TextId(UuidText(hex(cursor)))
    ensures Prepare(c, h, hex, cursor).value.basename == hex(cursor)[..8]
  {
    UuidBasename(hex(cursor));
  }

  /** The plan once both ids are known. */
  function Settle(c: ExportCall, h: Host, docId: DocumentId, taskId: string, cursor: nat): Plan
  {
    var basename := Basename(docId);
    var outDir := if Given(c.outDir) then c.outDir.value else h.outputDir;
    var base := if Given(c.outPath) then Stem(Name(c.outPath.value)) else basename;
    Plan(docId, taskId, basename, outDir, NormaliseMode(c.mode), base, cursor)
  }

  /** The rewriter's inputs for a settled call. */
  function RewriteEnv(p: Plan, h: Host, hex: nat -> string): Env
  {
    Env(p.taskId, p.base, p.outDir, h.cwd, h.imagesDir, h.decode, hex)
  }

  /** The output file of a kind: `out_path` when given, otherwise the
      basename with the kind's extension in the output directory. */
  function OutputFile(c: ExportCall, p: Plan, k: Kind): string
  {
    if Given(c.outPath) then c.outPath.value else Join(p.outDir, p.basename + k.Ext())
  }

  /** The text a kind exports (or the exception of the rewriter), the disk
      and the uuid count after producing it. */
  datatype Produced = Produced(text: Result<string, string>, fs: FsState, cursor: nat)

  /** The rendered text of a kind, with images embedded. */
  function Rendered(c: ExportCall, r: Rendering, k: Kind): string
  {
    match k
    case JsonKind => if c.inMemory then r.json else r.jsonFile
    case HtmlKind => r.html
    case _ => r.markdown
  }

  /** JSON as rendered; HTML and markdown through the rewriter when the
      mode is "referenced". */
  function Produce(c: ExportCall, p: Plan, r: Rendering, h: Host, hex: nat -> string, k: Kind, fs: FsState): (o: Produced)
    requires k != NoKind
    ensures k == JsonKind || p.mode != "referenced" ==> o == Produced(Ok(Rendered(c, r, k)), fs, p.cursor)
  {
    if k == JsonKind || p.mode != "referenced" then Produced(Ok(Rendered(c, r, k)), fs, p.cursor)
    else
      var d := if k == HtmlKind then HtmlDoc else MarkdownDoc;
      var w := Rewrite(d, Rendered(c, r, k), "referenced", RewriteEnv(p, h, hex), fs, p.cursor);
      Produced(w.text, w.fs, w.cursor)
  }

  /** Answering with a produced text: in memory it is returned, otherwise
      it is written to the output file, and a failed write raises. */
  function Finish(c: ExportCall, k: Kind, path: string, o: Produced): (e: ExportOutcome)
    requires k != NoKind
    ensures e.cursor == o.cursor
    ensures e.answer.Ok? <==> o.text.Ok? && (c.inMemory || o.fs.Writable(path))
    ensures e.answer.Ok? ==> e.answer.value.paths == map[k.Key() := path] && (e.answer.value.content.Some? <==> c.inMemory)
    ensures e.answer.Ok? && c.inMemory ==> e.answer.value.content == Some(map[k.Key() := o.text.value])
    ensures o.text.Ok? && !c.inMemory ==> e.fs == WriteFile(o.fs, path, Text(o.text.value)).1
    ensures o.text.Err? || c.inMemory ==> e.fs == o.fs
  {
    if o.text.Err? then ExportOutcome(Err(o.text.error), o.fs, o.cursor)
    else if c.inMemory then ExportOutcome(Ok(Exported(map[k.Key() := path], Some(map[k.Key() := o.text.value]))), o.fs, o.cursor)
    else
      var w := WriteFile(o.fs, path, Text(o.text.value));
      if !w.0 then ExportOutcome(Err("cannot write " + path), o.fs, o.cursor)
      else ExportOutcome(Ok(Exported(map[k.Key() := path], None)), w.1, o.cursor)
  }

  /** Everything after the argument checks: the output directory is
      created, and a known format is produced and answered. */
  function Emit(c: ExportCall, p: Plan, r: Rendering, h: Host, hex: nat -> string, fs: FsState): ExportOutcome
  {
    var mk := MakeDir(fs, p.outDir);
    if !mk.0 then ExportOutcome(Err("cannot create " + p.outDir), fs, p.cursor)
    else
      var k := KindOf(EffectiveFormat(c));
      if k == NoKind then ExportOutcome(Ok(Exported(map[], None)), mk.1, p.cursor)
      else Finish(c, k, OutputFile(c, p, k), Produce(c, p, r, h, hex, k, mk.1))
  }

  /** `export_document` as a function of the call, the rendered texts, the
      disk and the uuid supply. */
  function ExportSpec(c: ExportCall, r: Rendering, h: Host, hex: nat -> string, fs: FsState, cursor: nat): ExportOutcome
    requires HexSupply(hex)
  {
    match Prepare(c, h, hex, cursor)
    case Err(e) => ExportOutcome(Err(e), fs, cursor)
    case Ok(p) => Emit(c, p, r, h, hex, fs)
  }

  /** The producing step as it runs: the rewriter changes the disk and
      draws names. */
  method ProduceM(c: ExportCall, p: Plan, r: Rendering, h: Host, k: Kind, disk: FileSystem, names: NameSupply)
    returns (text: Result<string, string>)
    requires k != NoKind && names.next == p.cursor
    modifies disk, names
    ensures Produced(text, disk.State(), names.next) == Produce(c, p, r, h, names.hex, k, old(disk.State()))
  {
    text := Ok(Rendered(c, r, k));
    if k != JsonKind && p.mode == "referenced" {
      var env := RewriteEnv(p, h, names.hex);
      text := ProcessImages(if k == HtmlKind then HtmlDoc else MarkdownDoc, Rendered(c, r, k), "referenced", env, disk, names);
    }
  }

  /** Everything after the argument checks, as it runs. */
  method EmitM(c: ExportCall, p: Plan, r: Rendering, h: Host, disk: FileSystem, names: NameSupply)
    returns (answer: Result<Exported, string>)
    requires names.next == p.cursor
    modifies disk, names
    ensures ExportOutcome(answer, disk.State(), names.next) == Emit(c, p, r, h, names.hex, old(disk.State()))
  {
    var made := disk.MakeDirs(p.outDir);
    if !made {
      return Err("cannot create " + p.outDir);
    }
    var k := KindOf(EffectiveFormat(c));
    if k == NoKind {
      return Ok(Exported(map[], None));
    }
    var path := OutputFile(c, p, k);
    var text := ProduceM(c, p, r, h, k, disk, names);
    if text.Err? {
      return Err(text.error);
    }
    if c.inMemory {
      return Ok(Exported(map[k.Key() := path], Some(map[k.Key() := text.value])));
    }
    var written := disk.Write(path, Text(text.value));
    if !written {
      return Err("cannot write " + path);
    }
    answer := Ok(Exported(map[k.Key() := path], None));
  }

  /** The argument checks and the ids drawn, as they run. */
  method PrepareM(c: ExportCall, h: Host, names: NameSupply) returns (plan: Result<Plan, string>)
    requires HexSupply(names.hex)
    modifies names
    ensures plan == Prepare(c, h, names.hex, old(names.next))
    ensures names.next == (if plan.Ok? then plan.value.cursor else old(names.next))
  {
    if c.result == NoDocument {
      return Err(NoDocumentError);
    }
    if c.result == NoResult && c.documentId.None? {
      return Err(MissingIdError);
    }
    var docId := DrawDocId(c, names);
    var taskId := DrawTaskId(c, names);
    plan := Ok(Settle(c, h, docId, taskId, names.next));
  }

  /** The document id: the one given, the result's, or a fresh uuid4. */
  function DocId(c: ExportCall, hex: nat -> string, cursor: nat): DocumentId
    requires HexSupply(hex)
    requires c.result != NoDocument && !(c.result == NoResult && c.documentId.None?)
  {
    if c.result == NoResult then c.documentId.value
    else if c.result.docId.Some? then c.result.docId.value
    else TextId(UuidText(hex(cursor)))
  }

  /** The task id: the one given or a fresh uuid4. */
  function TaskId(c: ExportCall, hex: nat -> string, cursor: nat): string
    requires HexSupply(hex)
  {
    if c.taskId.Some? then c.taskId.value else UuidText(hex(cursor))
  }

  method DrawDocId(c: ExportCall, names: NameSupply) returns (docId: DocumentId)
    requires HexSupply(names.hex)
    requires c.result != NoDocument && !(c.result == NoResult && c.documentId.None?)
    modifies names
    ensures docId == DocId(c, names.hex, old(names.next))
    ensures names.next == old(names.next) + (if c.result == Converted(None) then 1 else 0)
  {
    if c.result == NoResult {
      docId := c.documentId.value;
    } else if c.result.docId.Some? {
      docId := c.result.docId.value;
    } else {
      var hx := names.Fresh();
      docId := TextId(UuidText(hx));
    }
  }

  method DrawTaskId(c: ExportCall, names: NameSupply) returns (taskId: string)
    requires HexSupply(names.hex)
    modifies names
    ensures taskId == TaskId(c, names.hex, old(names.next))
    ensures names.next == old(names.next) + (if c.taskId.None? then 1 else 0)
  {
    if c.taskId.Some? {
      taskId := c.taskId.value;
    } else {
      var hx := names.Fresh();
      taskId := UuidText(hx);
    }
  }

  /** `export_document` as it runs: ids drawn from the supply, then the
      output produced; proved to do exactly what `ExportSpec` says. */
  method ExportDocument(c: ExportCall, r: Rendering, h: Host, disk: FileSystem, names: NameSupply)
    returns (answer: Result<Exported, string>)
    requires HexSupply(names.hex)
    modifies disk, names
    ensures ExportOutcome(answer, disk.State(), names.next) == ExportSpec(c, r, h, names.hex, old(disk.State()), old(names.next))
  {
    var plan := PrepareM(c, h, names);
    if plan.Err? {
      return Err(plan.error);
    }
    answer := EmitM(c, plan.value, r, h, disk, names);
  }

  // ---------------------------------------------------------------- properties

  /** Without a result and without a document id, or with a result that has
      no document, the call raises before drawing an id or touching the disk. */
  lemma ExportNeedsSource(c: ExportCall, r: Rendering, h: Host, hex: nat -> string, fs: FsState, cursor: nat)
    requires HexSupply(hex)
    requires c.result == NoDocument || (c.result == NoResult && c.documentId.None?)
    ensures var o := ExportSpec(c, r, h, hex, fs, cursor);
            o.answer.Err? && o.fs == fs && o.cursor == cursor
  {
  }

  /** A successful call answers with exactly one path, under the key of its
      format and at `out_path` or `<output dir>/<basename><ext>`, and carries
      content only in memory; a format other than json, html, html-single
      and markdown answers with no path at all. */
  lemma ExportAnswerShape(c: ExportCall, r: Rendering, h: Host, hex: nat -> string, fs: FsState, cursor: nat)
    requires HexSupply(hex)
    ensures var o := ExportSpec(c, r, h, hex, fs, cursor);
            var k := KindOf(EffectiveFormat(c));
            o.answer.Ok? ==>
              Prepare(c, h, hex, cursor).Ok?
              && (k == NoKind ==> o.answer.value == Exported(map[], None))
              && (k != NoKind ==>
                    o.answer.value.paths == map[k.Key() := OutputFile(c, Prepare(c, h, hex, cursor).value, k)]
                    && (o.answer.value.content.Some? <==> c.inMemory))
  {
  }

  /** The default output file is named after the short basename of the
      document id, with the extension of the format. */
  lemma DefaultOutputFile(c: ExportCall, h: Host, hex: nat -> string, cursor: nat, k: Kind)
    requires HexSupply(hex)
    requires Prepare(c, h, hex, cursor).Ok? && !Given(c.outPath)
    requires k != NoKind && h.outputDir != "" && !Given(c.outDir)
    ensures var p := Prepare(c, h, hex, cursor).value;
            OutputFile(c, p, k) == Join(h.outputDir, Basename(p.docId) + k.Ext())
            && EndsWith(OutputFile(c, p, k), k.Ext())
  {
    var p := Prepare(c, h, hex, cursor).value;
    var n := p.basename + k.Ext();
    EndsWithConcat(p.basename, k.Ext());
    JoinEndsWith(h.outputDir, n);
    EndsWithTrans(Join(h.outputDir, n), n, k.Ext());
  }

  /** JSON never runs the rewriter, nor do HTML and markdown outside the
      "referenced" mode: no image name is drawn, and the only file that can
      change is the output, which then holds the rendered text (nothing at
      all is written in memory). */
  lemma NoRewriteOutsideReferenced(c: ExportCall, r: Rendering, h: Host, hex: nat -> string, fs: FsState, cursor: nat)
    requires HexSupply(hex)
    requires KindOf(EffectiveFormat(c)) == JsonKind || NormaliseMode(c.mode) != "referenced"
    ensures var o := ExportSpec(c, r, h, hex, fs, cursor);
            var pr := Prepare(c, h, hex, cursor);
            var k := KindOf(EffectiveFormat(c));
            o.cursor == (if pr.Ok? then cursor + IdDraws(c) else cursor)
            && (o.fs.files == fs.files
                || (pr.Ok? && k != NoKind && !c.inMemory
                    && o.fs.files == fs.files[OutputFile(c, pr.value, k) := Text(Rendered(c, r, k))]))
  {
    var pr := Prepare(c, h, hex, cursor);
    if pr.Ok? {
      var mk := MakeDir(fs, pr.value.outDir);
      var k := KindOf(EffectiveFormat(c));
      if mk.0 && k != NoKind {
        assert Produce(c, pr.value, r, h, hex, k, mk.1) == Produced(Ok(Rendered(c, r, k)), mk.1, pr.value.cursor);
      }
    }
  }

  /** Exporting text, yaml or doctags (or no format) writes no output file
      and answers with no path, though the call succeeds. */
  lemma OtherFormatsWriteNothing(c: ExportCall, r: Rendering, h: Host, hex: nat -> string, fs: FsState, cursor: nat)
    requires HexSupply(hex)
    requires EffectiveFormat(c) in {Some("text"), Some("yaml"), Some("doctags"), None}
    ensures var o := ExportSpec(c, r, h, hex, fs, cursor);
            o.fs.files == fs.files
            && (o.answer.Ok? <==> Prepare(c, h, hex, cursor).Ok? && !fs.IsFile(Prepare(c, h, hex, cursor).value.outDir))
            && (o.answer.Ok? ==> o.answer.value == Exported(map[], None))
  {
    var pr := Prepare(c, h, hex, cursor);
    if pr.Ok? {
      EmitNoKind(c, pr.value, r, h, hex, fs);
    }
  }

  /** Past the argument checks, a call with no output kind only creates
      the output directory. */
  lemma EmitNoKind(c: ExportCall, p: Plan, r: Rendering, h: Host, hex: nat -> string, fs: FsState)
    requires KindOf(EffectiveFormat(c)) == NoKind
    ensures var o := Emit(c, p, r, h, hex, fs);
            o.fs.files == fs.files
            && (o.answer.Ok? <==> !fs.IsFile(p.outDir))
            && (o.answer.Ok? ==> o.answer.value == Exported(map[], None))
  {
  }

  /** Whatever a call does, it removes no file, and a file that changes is
      the output file or lies in the image directory of the call,
      `IMAGES_DIR/<output_base_name>`. */
  lemma ExportFrame(c: ExportCall, r: Rendering, h: Host, hex: nat -> string, fs: FsState, cursor: nat)
    requires HexSupply(hex)
    requires h.imagesDir != ""
    requires c.taskId.Some? ==> !StartsWith(c.taskId.value, "/")
    ensures var o := ExportSpec(c, r, h, hex, fs, cursor);
            var pr := Prepare(c, h, hex, cursor);
            fs.files.Keys <= o.fs.files.Keys
            && (pr.Err? ==> o.fs == fs)
            && (pr.Ok? ==>
                  forall q :: q in fs.files && !InDest(RewriteEnv(pr.value, h, hex), q)
                              && q != OutputFile(c, pr.value, KindOf(EffectiveFormat(c)))
                              ==> o.fs.files[q] == fs.files[q])
  {
    var pr := Prepare(c, h, hex, cursor);
    if pr.Ok? {
      var p := pr.value;
      assert !StartsWith(p.taskId, "/") by {
        if c.taskId.None? {
          var t := p.taskId;
          assert t[..1][0] == t[0];
        }
      }
      EmitFrame(c, p, r, h, hex, fs);
    }
  }

  lemma EmitFrame(c: ExportCall, p: Plan, r: Rendering, h: Host, hex: nat -> string, fs: FsState)
    requires h.imagesDir != "" && !StartsWith(p.taskId, "/")
    ensures var o := Emit(c, p, r, h, hex, fs);
            fs.files.Keys <= o.fs.files.Keys
            && forall q :: q in fs.files && !InDest(RewriteEnv(p, h, hex), q)
                           && q != OutputFile(c, p, KindOf(EffectiveFormat(c)))
                           ==> o.fs.files[q] == fs.files[q]
  {
    var mk := MakeDir(fs, p.outDir);
    var k := KindOf(EffectiveFormat(c));
    if mk.0 && k != NoKind {
      var path := OutputFile(c, p, k);
      var o := Produce(c, p, r, h, hex, k, mk.1);
      ProduceFrame(c, p, r, h, hex, k, mk.1);
      FinishFrame(c, k, path, o);
    }
  }

  /** Producing a text changes only files in the image directory. */
  lemma ProduceFrame(c: ExportCall, p: Plan, r: Rendering, h: Host, hex: nat -> string, k: Kind, fs: FsState)
    requires k != NoKind
    requires h.imagesDir != "" && !StartsWith(p.taskId, "/")
    ensures var o := Produce(c, p, r, h, hex, k, fs);
            fs.files.Keys <= o.fs.files.Keys
            && forall q :: q in fs.files && !InDest(RewriteEnv(p, h, hex), q) ==> o.fs.files[q] == fs.files[q]
  {
    if k != JsonKind && p.mode == "referenced" {
      var d := if k == HtmlKind then HtmlDoc else MarkdownDoc;
      RewriteFrame(d, Rendered(c, r, k), "referenced", RewriteEnv(p, h, hex), fs, p.cursor);
    }
  }

  /** Answering changes only the output file. */
  lemma FinishFrame(c: ExportCall, k: Kind, path: string, o: Produced)
    requires k != NoKind
    ensures var e := Finish(c, k, path, o);
            o.fs.files.Keys <= e.fs.files.Keys
            && forall q :: q in o.fs.files && q != path ==> e.fs.files[q] == o.fs.files[q]
  {
  }
}
