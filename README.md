# docling_fastapi core in Dafny

A model of the core of `docling_fastapi`, a FastAPI service that converts
documents (uploads and URLs) with the docling library and keeps the results
on disk. The model covers:

- the task state: the progress map written by `update_progress` and the
  batch map read, listed and deleted by the task endpoints;
- the request and option records with their defaults;
- the file service: output paths and names, the metadata sidecar, the
  normalisation of the image mode, and `export_document` with its dispatch
  by format;
- the image rewriter (`process_markdown_images`, `process_html_images`):
  hand-written matchers with the semantics Python's `re.sub` gives the
  seven image patterns, the replacers, the marker pass, the fallback
  section and `quote(..., safe='')`;
- the conversion service: the OCR language list, the converter choices made
  from the options, the extension of a downloaded file, and the URL
  background job with its progress checkpoints and temporary file;
- the conversion endpoints `convert_url` and `batch_convert`;
- the document pages `view_document` and `list_documents`.

State the source changes in place is modelled as classes:
`TaskState.TaskStore`, `Disk.FileSystem` and the supply of `uuid4().hex`
values `ImageService.NameSupply`. Their methods are proved to compute what
the pure specification functions say, and the properties are proved as
lemmas about those functions. The file system is a value (`Disk.FsState`):

- files with their contents;
- directories with their entries in enumeration order;
- a set of paths that cannot be opened for writing, which models an I/O
  error.

Each module sits in its own file. `wrappers`, `strings`, `paths`,
`percent`, `sorting` and `disk` are the shared groundwork. The other files
follow the service's own files:

- `models`, `task_store`;
- `file_service`, `export`;
- `image_scan`, `image_rewrite`, `image_service`, `image_props`;
- `conversion_service`, `runtime`, `url_job`, `url_job_props`;
- `conversion_router`, `documents`.

## Model

| member | source | states |
|---|---|---|
| FileService.UploadPath | services/file_service.py:21 | the upload path `UPLOADS_DIR / file.filename` ends with the uploaded name |
| FileService.UploadPathAbsolute | services/file_service.py:21 | an absolute uploaded name replaces the uploads directory entirely (pathlib `/` semantics) |
| FileService.SaveUploadedFile | services/file_service.py:18-28 | the bytes are written at the upload path and that path is returned; a failed write changes nothing else and raises |
| FileService.FileExtension | services/file_service.py:30-39 | every format maps to an extension that starts with a dot |
| FileService.WithExtension | services/file_service.py:49-50 | the adjusted name always ends with the extension |
| FileService.WithExtensionIdempotent | services/file_service.py:49-50 | adjusting a name that was already adjusted leaves it unchanged |
| FileService.OutputName | services/file_service.py:41-54 | the output name always ends with the format's extension |
| FileService.GivenOutputName | services/file_service.py:44-50 | a given name is kept when it already ends with the extension, otherwise its trailing dots are stripped and the extension appended |
| FileService.OutputPath | services/file_service.py:41-54 | the output path always ends with the format's extension |
| FileService.SynthesisedName | services/file_service.py:44-50 | without a given name the output name is the original's stem, `_`, the 32-digit hex and the extension |
| FileService.MetadataPath | services/file_service.py:58 | the sidecar's name is the output's stem followed by `.meta.json` |
| FileService.MetadataPathSuffix | services/file_service.py:58 | every sidecar path ends with `.meta.json` |
| FileService.SharedMetadataPath | services/file_service.py:58 | `x.md` and `x.html` in one directory share one sidecar path |
| FileService.MetadataOfJoin | services/file_service.py:58 | the sidecar of `dir/stem.ext` is `dir/stem.meta.json` |
| FileService.SaveMetadata | services/file_service.py:56-70 | the record is written at the sidecar path; a failed write is swallowed and leaves the disk as it was |
| FileService.NormaliseMode | services/file_service.py:154-159 | the result is one of the three modes: the lower-cased mode when that is valid, otherwise "referenced" |
| FileService.NormaliseModeIdempotent | services/file_service.py:154-159 | normalising a normalised mode changes nothing |
| FileService.ShortBasename | services/file_service.py:131-139 | when `^(.{8})[0-9a-f-]+$` matches, the basename is the first eight characters plus whatever the match leaves after it; otherwise the whole id |
| FileService.UuidText | services/file_service.py:118 | `str(uuid4())` is 36 characters and begins with the first eight hex digits |
| FileService.UuidBasename | services/file_service.py:131-139 | a generated UUID id shortens to its first eight hex digits |
| FileService.UuidObjectKeptWhole | services/file_service.py:131-139 | the same uuid names its file by its first eight hex digits when the id is a `str`, and by all 36 characters of `str(id)` when it is a `uuid.UUID` object |
| FileService.ShortBasenameCutsWords | services/file_service.py:131-139 | the pattern also cuts ordinary ids: "document-1" becomes "document", "report-2024" becomes "report-2", a trailing newline survives, and "notes.txt" is kept |
| Export.EffectiveFormat | services/file_service.py:106-107 | `export_format` wins whenever it is given; `format` is used only in its absence |
| Export.Prepare | services/file_service.py:109-173 | a `ValueError` exactly when the result lacks a document ("提供的 result 物件沒有 document 屬性") or neither a result nor a document id is given ("必須提供 result 或 document_id 參數"); otherwise the given ids are kept, one uuid is drawn per missing id, the basename is the short basename of a `str` document id and the whole `str()` text of any other id, the output directory is `out_dir_path or OUTPUT_DIR`, the mode is normalised, and `output_base_name` is the stem of `out_path` or the basename |
| Export.Produce | services/file_service.py:178-241 | JSON, and HTML or markdown outside "referenced" mode, yield the rendered text and leave the disk and the uuid count untouched |
| Export.Finish | services/file_service.py:187-253 | the call succeeds exactly when the text was produced and either runs in memory or the output is writable; the answer has one path under the format's key and carries content iff in memory; only a file write changes the disk |
| Export.ProduceM | services/file_service.py:178-241 | the imperative producer computes exactly `Produce` |
| Export.EmitM | services/file_service.py:142-255 | the imperative dispatch computes exactly the specified outcome |
| Export.PrepareM | services/file_service.py:106-173 | the imperative argument handling computes exactly `Prepare` and draws the uuids it settles on |
| Export.DrawDocId | services/file_service.py:109-121 | the document id is the result's id, the given id, or a fresh uuid when the result's document has none (one draw then) |
| Export.GeneratedIdBasename | services/file_service.py:115-139 | a conversion result whose document has no id gets a fresh `str(uuid4())`, and its files are named after that uuid's first eight hex digits |
| Export.DrawTaskId | services/file_service.py:124-125 | the task id is the given one, or a fresh uuid (one draw then) |
| Export.ExportDocument | services/file_service.py:75-255 | the whole call computes exactly the specified outcome: the answer, the disk afterwards and the uuids drawn |
| Export.ExportNeedsSource | services/file_service.py:109-121 | without a document the call raises, draws nothing and leaves the disk unchanged |
| Export.ExportAnswerShape | services/file_service.py:176-255 | a successful call answers with exactly one path under its format's key, carrying content only in memory; any other format answers with no path at all |
| Export.DefaultOutputFile | services/file_service.py:178-231 | without `out_path` or `out_dir_path` the output file is `OUTPUT_DIR/<basename><ext>`, the basename being that of the document id, and ends with the extension |
| Export.NoRewriteOutsideReferenced | services/file_service.py:178-241 | JSON, and HTML or markdown outside "referenced" mode, draw no image names, and the only file that can change is the output file, which then holds the rendered text |
| Export.OtherFormatsWriteNothing | services/file_service.py:176-255 | exporting text, yaml or doctags writes no file and answers with no path; the call still succeeds when the output directory can be made |
| Export.EmitNoKind | services/file_service.py:146-255 | past the argument checks, a call with no output kind only creates the output directory |
| Export.ExportFrame | services/file_service.py:142-255 | no file is removed, and the only files that change are the output file and files inside `IMAGES_DIR/<output_base_name>` |
| Export.ProduceFrame | services/file_service.py:205-241 | producing the text changes only files inside the image directory |
| Export.FinishFrame | services/file_service.py:187-253 | answering changes only the output file |
| Documents.ViewFormat | routers/documents.py:25-36 | the format shown is always one of the six request formats ("markdown" when no ending matches) |
| Documents.MarkdownShown | routers/documents.py:25-36 | a name ending in ".md" is shown as markdown, since no other ending of the chain matches it |
| Documents.YamlShown | routers/documents.py:27-30 | a ".yaml" name is shown as yaml |
| Documents.YmlShown | routers/documents.py:27-30 | a ".yml" name is shown as yaml |
| Documents.HtmlShown | routers/documents.py:27-32 | an ".html" name is shown as html |
| Documents.TextShown | routers/documents.py:27-34 | a ".txt" name is shown as text |
| Documents.DoctagsShown | routers/documents.py:27-36 | a ".doctags" name is shown as doctags |
| Documents.FormatsAgree | routers/documents.py:25-78 | for every supported extension, the format the listing gives a file equals the format the view shows for it |
| Documents.ViewFormatOfOutput | routers/documents.py:25-36 | an output named with its format's extension (services/file_service.py:30-39) is viewed in that same format |
| Documents.SourceInfo | routers/documents.py:38-48 | without a sidecar the source shown is "未知來源" |
| Documents.ViewDocument | routers/documents.py:9-59 | an error exactly when no readable file is at `OUTPUT_DIR/filename`: 404 when nothing exists there, 500 when it exists but cannot be read; otherwise the name, its text, the format its ending implies and the source from its `.meta.json` sidecar |
| Documents.MetadataPathDiffers | routers/documents.py:40 | a file's `.meta.json` sidecar path is never the file's own path |
| Documents.ViewShowsSavedSource | routers/documents.py:38-48 | after `save_metadata` (services/file_service.py:56-70) the view of that output shows the saved source, the output's text and the format its name implies |
| Documents.Entry | routers/documents.py:72-97 | an entry carries the file's name and the extension's format; a failed `stat()` records 0 and 0 |
| Documents.Listing | routers/documents.py:61-99 | the documents are the collected entries, reordered, newest first by `created` |
| Documents.ListDocuments | routers/documents.py:61-99 | the loops over extensions and globbed names, followed by the sort, compute exactly the listing |
| Documents.AppendGlobbed | routers/documents.py:68-97 | one glob appends the entries of the names with that ending, in order, skipping sidecars |
| Documents.GlobbedEntries | routers/documents.py:68-70 | an entry of a glob belongs to a directory name with that ending that is not a sidecar, and every such name has its entry |
| Documents.CollectedSound | routers/documents.py:65-70 | every collected entry is the entry of a directory name listed under one of the extensions |
| Documents.CollectedComplete | routers/documents.py:65-70 | every directory name listed under some extension has its entry among the collected ones |
| Documents.CollectedEntry | routers/documents.py:65-97 | a collected entry names a supported, non-sidecar file of the directory, has the view's format, and has 0 and 0 after a failed `stat()` |
| Documents.ListingSound | routers/documents.py:61-99 | every listed document is a supported, non-sidecar file of the output directory whose listed format is the view's format; a failed `stat()` lists 0 and 0 |
| Documents.ListingComplete | routers/documents.py:61-99 | every supported, non-sidecar file of the output directory is listed |
| ConversionService.Split | services/conversion_service.py:40 | `re.split(r"[;,]")` gives one more piece than there are separators, and no piece contains a separator |
| ConversionService.Separators | services/conversion_service.py:40 | the separators of a string, one per `;` or `,` |
| ConversionService.SplitRejoins | services/conversion_service.py:40 | interleaving the pieces with the separators gives back the original string |
| ConversionService.SplitList | services/conversion_service.py:37-40 | `None` exactly for `None`; otherwise one piece more than the separators |
| ConversionService.SplitNoSeparator | services/conversion_service.py:40 | a string without a separator splits into itself alone |
| ConversionService.SplitAtFirst | services/conversion_service.py:40 | the split cuts at the first separator and continues with the rest |
| ConversionService.SplitAroundOne | services/conversion_service.py:40 | "a;b" or "a,b" splits into exactly the two names |
| ConversionService.BackendOneToOne | services/conversion_service.py:83-91 | each of the four named backends gets its own class; any other value gets none |
| ConversionService.OcrOf | services/conversion_service.py:45-54 | OCR languages are set exactly when `ocr_lang` is a non-empty string, and then as its `;`/`,`-separated pieces |
| ConversionService.Decide | services/conversion_service.py:61-154 | images use the PDF option; DOCX uses the simple pipeline; the PDF option is absent exactly for an unknown pipeline, standard for STANDARD and VLM for VLM |
| ConversionService.StandardChoices | services/conversion_service.py:62-96 | the standard pipeline renders page and picture images at scale 2 exactly when the mode is not PLACEHOLDER; it always does table structure with cell matching; OCR, enrichment, accelerator and backend options pass through |
| ConversionService.VlmChoices | services/conversion_service.py:97-117 | GRANITE_VISION and SMOLDOCLING select their option sets; the MLX set is used exactly on macOS when `mlx_vlm` imports; any other model keeps the default |
| ConversionService.DefaultChoices | models.py:46-62 | the default options choose the standard pipeline with images at scale 2, the DLPARSE_V2 backend and no explicit OCR languages |
| ConversionService.SplitScheme | services/conversion_service.py:215 | a URL without a scheme keeps all of its text as the remainder |
| ConversionService.Before | services/conversion_service.py:215 | the prefix before the first occurrence of a character, or the whole text when it does not occur |
| ConversionService.CutParams | services/conversion_service.py:215 | dropping `;params` keeps a prefix of the path |
| ConversionService.UrlPath | services/conversion_service.py:215 | `urlparse(url).path`: the `ValueError` "Invalid IPv6 URL" exactly when the network location of the cleaned URL has a `[` without a `]` or the reverse; otherwise a path with no `?` and no `#` (also routers/conversion.py:61) |
| ConversionService.UrlPathClean | services/conversion_service.py:215 | a parsed path never holds a tab, CR or LF: urlsplit removes them before parsing (also routers/conversion.py:61) |
| ConversionService.UnsafeCharsIgnored | services/conversion_service.py:215 | tabs, CRs and LFs anywhere in a URL that starts with a visible character do not change its parse: it gives what the URL without them gives (also routers/conversion.py:61) |
| ConversionService.RemoveUnsafeConcat | services/conversion_service.py:215 | removing tabs, CRs and LFs works piece by piece over a concatenation |
| ConversionService.SplitExt | services/conversion_service.py:216 | `os.path.splitext` splits the path into two parts that concatenate back to it; the extension is empty or a dot followed by no dot and no `/` |
| ConversionService.SplitExtExamples | services/conversion_service.py:216 | only the last extension is split off; a leading dot is not an extension; a dot in a directory is not one; a trailing dot is one |
| ConversionService.ContentTypeExtension | services/conversion_service.py:204-216 | the download's extension always starts with a dot and contains no `/`; the only failure is the URL parse's `ValueError` "Invalid IPv6 URL" |
| ConversionService.ExtensionFailsIff | services/conversion_service.py:204-216 | choosing the extension fails exactly when no Content-Type test matches and the URL cannot be parsed |
| ConversionService.UrlExtensionLast | services/conversion_service.py:207-216 | a Content-Type that any test recognises fixes the extension; the URL is then not parsed, so it can neither change the extension nor raise |
| ConversionService.UrlPathOfWebUrl | services/conversion_service.py:215 | for an http(s) URL without query, fragment, parameters, unpaired brackets, tabs, CRs or LFs, the path is what follows the host |
| ConversionService.UnpairedBracketRaises | services/conversion_service.py:215 | an http(s) URL whose host has a `[` without a `]`, or the reverse, makes the parse raise "Invalid IPv6 URL" (also routers/conversion.py:61) |
| ConversionService.WebUrlParts | services/conversion_service.py:215 | an http(s) URL without tabs, CRs or LFs is parsed as it is: its scheme, its host as the network location and the path after it |
| ConversionService.SchemeOfWebUrl | services/conversion_service.py:215 | "http" and "https" are recognised as the scheme |
| ConversionService.SchemeSplits | services/conversion_service.py:215 | a valid lower-case scheme is split off at its colon |
| ConversionService.NetlocOfWebUrl | services/conversion_service.py:215 | the network location is skipped up to the path's first `/` |
| ConversionRouter.UrlBaseName | routers/conversion.py:61-62 | the parse's exception exactly when the URL cannot be parsed; otherwise the base name is never empty and has no `/`, and it is "document_from_url" when the URL's path or its last segment is empty |
| ConversionRouter.ExtensionIsName | services/file_service.py:30-39 | no output extension contains a `/` |
| ConversionRouter.UrlOutputName | routers/conversion.py:58-71 | fails exactly when no name is given and the URL cannot be parsed; a given name always ends with the format's extension afterwards, and is kept as it is when it already did |
| ConversionRouter.UrlOutputNameSynthesised | routers/conversion.py:60-66 | without a given name, and for a URL that parses, the output is the base name's stem, `_`, the uuid's 32 hex digits and the format's extension |
| ConversionRouter.SynthesisedOutputName | services/file_service.py:41-54 | the name of the path `determine_output_path` synthesises is the original name's stem, `_`, the hex digits and the extension |
| ConversionRouter.StemHasNoSeparator | services/file_service.py:45 | the stem of a name without `/` has no `/` |
| ConversionRouter.HexHasNoSeparator | services/file_service.py:45 | uuid hex digits contain no `/` |
| ConversionRouter.UrlOutputNameStable | routers/conversion.py:58-71 | every name chosen ends with the format's extension, and giving that name back as `output_filename` returns it unchanged |
| ConversionRouter.WebUrlBaseName | routers/conversion.py:61-62 | the base name of an http(s) URL (no unpaired brackets, tabs, CRs or LFs) whose path ends in a named file is that file's name |
| ConversionRouter.SegmentBaseName | routers/conversion.py:61-62 | a URL path that ends in a named segment gives that segment as the base name |
| ConversionRouter.ConvertUrl | routers/conversion.py:31-101 | a source that is not http(s) gets 422 and changes nothing; otherwise the task id is `str(uuid4())`; without a given name a URL that cannot be parsed escapes as a 500 with that one uuid drawn and no progress record; otherwise the output name is the chosen one, the task gets exactly one "queued" record at 0, the queued job carries the id, source, name and format, and one uuid is drawn (two when the name is synthesised) |
| ConversionRouter.FileSucceeded | routers/conversion.py:155-198 | a success result is about its file and is settled: it names the output and carries no error |
| ConversionRouter.FileFailed | routers/conversion.py:155-204 | an error result is about its file and is settled: it carries the exception's text and no output |
| ConversionRouter.PassSettled | routers/conversion.py:157-215 | whatever step raises, one file's pass ends with a result about its upload that is settled |
| ConversionRouter.SaveSettled | routers/conversion.py:158-159 | from the save on, the pass's result is about the upload and is settled |
| ConversionRouter.ConvertSettled | routers/conversion.py:161-170 | from naming the output on, the pass's result is about the upload and is settled |
| ConversionRouter.ConvertToSettled | routers/conversion.py:169-170 | from the conversion on, the pass's result is about the upload and is settled |
| ConversionRouter.ExportSettled | routers/conversion.py:172-198 | from the export on, the pass's result is about the upload and is settled |
| ConversionRouter.Files | routers/conversion.py:150-215 | the loop gives one result per upload, in upload order, each about its upload and settled |
| ConversionRouter.ResultsSnoc | routers/conversion.py:210 | appending the last upload's settled result keeps every result settled and in upload order |
| ConversionRouter.SuccessCount | routers/conversion.py:218 | the number of successes never exceeds the number of results |
| ConversionRouter.AllSucceeded | routers/conversion.py:218-219 | the count of successes equals the number of files exactly when every result is a success |
| ConversionRouter.MidpointBounds | routers/conversion.py:151 | each file's midpoint progress lies in [0, 100) |
| ConversionRouter.MidpointMonotone | routers/conversion.py:150-151 | a later file never gets a smaller midpoint |
| ConversionRouter.MidpointStrict | routers/conversion.py:150-151 | with at most 100 files, each file's midpoint is larger than the one before |
| ConversionRouter.MidpointRepeats | routers/conversion.py:151 | with more than 100 files midpoints can repeat: files 0 and 1 of a batch of 200 both report 0 |
| ConversionRouter.Announced | routers/conversion.py:150-152 | the "processing" checkpoints are one per upload, in order, each with its file's midpoint and name |
| ConversionRouter.BatchProgressRises | routers/conversion.py:146-227 | the batch's progress, from "init" at 0 through the files to the final 100, never goes down |
| ConversionRouter.AnnouncedRise | routers/conversion.py:150-152 | the "processing" checkpoints stay below 100 and never go down |
| ConversionRouter.CompleteIffAllSucceeded | routers/conversion.py:218-227 | the batch is "complete" in its final checkpoint, its response and its record exactly when every file succeeded; otherwise it is "partial_error", and "error" in the record |
| ConversionRouter.ProcessFile | routers/conversion.py:157-215 | one pass of the loop body, as it runs, computes exactly the specified result, disk and uuid count |
| ConversionRouter.ConvertFileM | routers/conversion.py:161-198 | naming the output, then converting, exporting and recording, as they run, compute exactly the specified pass |
| ConversionRouter.ConvertToM | routers/conversion.py:169-198 | the conversion onwards, as it runs, computes exactly the specified pass |
| ConversionRouter.ConvertingNamesFirst | routers/conversion.py:161-170 | the output path is named (one uuid drawn) before the conversion runs |
| ConversionRouter.ExportFileM | routers/conversion.py:172-198 | the export onwards, as it runs, computes exactly the specified pass |
| ConversionRouter.RecordFileM | routers/conversion.py:188-198 | the metadata is saved and the success names the output path's name |
| ConversionRouter.BatchStep | routers/conversion.py:150-215 | one turn writes exactly the file's "processing" checkpoint, runs its pass, and appends its result to the batch record, changing no other record |
| ConversionRouter.FilesSnoc | routers/conversion.py:150-215 | the run over one more upload is the run so far followed by that upload's pass |
| ConversionRouter.AnnouncedSnoc | routers/conversion.py:150-152 | the checkpoints for one more upload are those so far followed by its own |
| ConversionRouter.RunFiles | routers/conversion.py:150-215 | the loop computes exactly the specified results, disk and uuid count, writes exactly the "processing" checkpoints, and leaves the batch record holding the results |
| ConversionRouter.FinishBatch | routers/conversion.py:217-235 | the final status goes into the record and into one last checkpoint at 100, and the response carries the status, the message, the id, the count and the results |
| ConversionRouter.BatchConvert | routers/conversion.py:103-235 | the batch writes "init", one checkpoint per file and the final one, in that order; it records the creation time, file count, results, options and final status under a fresh `uuid4().hex`; and it leaves the disk and uuid count as the passes specify |
| UrlJob.Job | services/conversion_service.py:189-266 | the try block always starts with the "downloading" checkpoint; `file_path` is bound from the temporary file's write on, and not before |
| UrlJob.Cleanup | services/conversion_service.py:273-280 | the finally clause leaves no bound temporary file on disk, and changes nothing when none is bound |
| UrlJob.UrlJobSpec | services/conversion_service.py:185-280 | every job writes at least one checkpoint |
| UrlJob.ExportStageM | services/conversion_service.py:246-266 | export, metadata and the final checkpoint, as they run, compute exactly the specified checkpoints, disk, uuid count and exception |
| UrlJob.RunPhase | services/conversion_service.py:241-243 | the conversion and the "processing" checkpoint are written to the progress map in the specified order, stopping at the converter's exception |
| UrlJob.OptionsM | services/conversion_service.py:225-238 | the "converting" checkpoint, plus the warning when the options dictionary does not rebuild; the options are the rebuilt ones or the defaults |
| UrlJob.PreparePhase | services/conversion_service.py:225-243 | the option checkpoints are followed by the conversion, with the temporary file bound |
| UrlJob.SavePhase | services/conversion_service.py:204-223 | the extension is chosen first (its parse can raise, before any file exists), then the temporary file is created under it and written with the body; `file_path` is bound only after the write |
| UrlJob.FetchPhase | services/conversion_service.py:190-202 | the "downloading" checkpoint, then either the download's exception or the rest of the block |
| UrlJob.CleanUp | services/conversion_service.py:273-280 | the imperative finally clause computes exactly `Cleanup` |
| UrlJob.RunBody | services/conversion_service.py:189-266 | the try block, as it runs, computes exactly the specified checkpoints, disk, uuid count, exception and `file_path` |
| UrlJob.ProcessUrlTask | services/conversion_service.py:185-280 | the whole job, as it runs, writes exactly the specified checkpoints to the progress map and leaves exactly the specified disk and uuid count |
| UrlJobProps.Stages | services/conversion_service.py:190-243 | the checkpoints before the last one number three or four |
| UrlJobProps.StagesProgress | services/conversion_service.py:190-243 | their progress values are 10, then 30 once or twice, then 70 |
| UrlJobProps.ExportStageWrites | services/conversion_service.py:250-266 | the export stage writes "complete" exactly when it does not raise |
| UrlJobProps.RunStageWrites | services/conversion_service.py:241-266 | after the conversion: "processing" once it returns, and "complete" exactly when nothing raises |
| UrlJobProps.SaveStageWrites | services/conversion_service.py:220-266 | after the download, the writes are a prefix of the remaining checkpoints, and all of them exactly when nothing raises |
| UrlJobProps.BodyWrites | services/conversion_service.py:189-266 | the try block writes a prefix of the stages, and all of them followed by "complete" exactly when it does not raise |
| UrlJobProps.SuccessfulJobWrites | services/conversion_service.py:190-266 | a successful job writes downloading, converting, the defaults warning when it applies, processing and complete, in that order and nothing else |
| UrlJobProps.StagesSpelled | services/conversion_service.py:190-266 | the stages followed by "complete" are exactly those five (or four) checkpoints |
| UrlJobProps.JobEnds | services/conversion_service.py:190-272 | the first checkpoint is "downloading"; the last is "complete" exactly when nothing raised, and otherwise the error record with the exception's text |
| UrlJobProps.StagesRise | services/conversion_service.py:190-272 | any prefix of the stages followed by a final 100 checkpoint rises |
| UrlJobProps.ProgressRises | services/conversion_service.py:185-272 | the progress value never goes down, and only the final checkpoint reaches 100 |
| UrlJobProps.FailedDownload | services/conversion_service.py:193-272 | a failed download leaves the disk and the uuid supply untouched and writes "downloading" and the error record |
| UrlJobProps.TempFileRemoved | services/conversion_service.py:220-280 | once the body is in the temporary file, that file is gone at the end of the job, whatever happened after |
| UrlJobProps.UnparsableUrlJob | services/conversion_service.py:204-272 | an unrecognised Content-Type from a URL that cannot be parsed ends the job with "downloading" and the error record "URL轉換失敗: Invalid IPv6 URL", the disk and the uuid supply untouched |
| UrlJobProps.TempFileLeak | services/conversion_service.py:220-275 | when writing the body raises, `file_path` is still unbound and the empty temporary file stays on disk |
| UrlJobProps.FailedConversion | services/conversion_service.py:241-280 | a conversion that raises ends the job before "processing"; nothing is exported and the disk ends as it began, without the temporary file |
| UrlJobProps.FailedConversionBody | services/conversion_service.py:220-241 | when the conversion raises, the try block ends with the temporary file holding the body and bound, and no uuid drawn |
| ImageScan.DataUriAt | services/image_service.py:27 | a data-URI group `data:image/<type>;base64,<data>` found at `k` ends at the closing character, with a non-empty type free of ';' and non-empty data free of the closing character |
| ImageScan.RelativeAt | services/image_service.py:30 | a relative source group is the text up to the closing character, and it never starts with `data:`, `http:`, `https:` or '/' (the negative lookahead) |
| ImageScan.MdTail | services/image_service.py:27-30 | the `](…)` tail of a markdown pattern ends inside the text, and a relative tail's source passes the lookahead |
| ImageScan.MdLazyAlt | services/image_service.py:27-30 | the lazy `(.*?)` alt group: the match it yields ends past the alt start and within the text, with a lookahead-safe source |
| ImageScan.AltAttrFrom | services/image_service.py:313 | the lazy `alt="([^"]*)"` search moves strictly forward and stays inside the text |
| ImageScan.TagEndFrom | services/image_service.py:313-318 | the lazy `(?:[^>]*?)>` tag end lies strictly after where the search starts and inside the text |
| ImageScan.HtmlTail | services/image_service.py:313-318 | the `src="…"` part of the four HTML patterns ends inside the text, with a lookahead-safe source for the relative ones |
| ImageScan.HtmlLazyAttrs | services/image_service.py:313-318 | the lazy `<img(?:[^>]*?)` prefix yields a match ending inside the text, with a lookahead-safe relative source |
| ImageScan.MatchAt | services/image_service.py:27-33 | a match of any of the seven patterns tried at `p` ends strictly after `p` and inside the text, and a relative source never starts with `data:`, `http(s):` or '/' |
| ImageRewrite.WebPath | services/image_service.py:93-94 | the web path of a minted image is under `/static/images/` |
| ImageRewrite.VisibleSubdirs | services/image_service.py:120-123 | the implicit candidate directories are directories, at most one per entry of the output directory |
| ImageRewrite.CandidateDirs | services/image_service.py:113-123 | `possible_img_dirs` is `<out>/<base>`, `<out>/<base>_images`, `<out>/images`, then the visible subdirectories, in that order |
| ImageRewrite.Glob | services/image_service.py:141-143 | every globbed path is `dir/name` for an entry `name` that ends with the pattern's extension |
| ImageRewrite.Upper | services/image_service.py:143 | `ext.upper()` keeps the length |
| ImageRewrite.InDirs | services/image_service.py:166-169 | at most one basename candidate per candidate directory |
| ImageRewrite.SourceCandidates | services/image_service.py:160-169 | `source_paths_to_try` is `<out>/<rel>`, the path resolved against the working directory, then `<dir>/<basename>` for each candidate directory |
| ImageRewrite.FirstFile | services/image_service.py:171-178 | no source is found exactly when no candidate is a file; a found source is a candidate and a file |
| ImageRewrite.ReplaceDataUri | services/image_service.py:69-107 | data that does not decode leaves the match and the state unchanged |
| ImageRewrite.Relocate | services/image_service.py:186-192 | the destination name is `<task_id>_<hex>` plus the source's suffix, and exactly one name is drawn |
| ImageRewrite.RelocateOutcome | services/image_service.py:186-192 | the copy succeeds exactly when the source is a file and the destination writable; then the destination holds the source's bytes and the count grows by one, otherwise only a name is used up |
| ImageRewrite.ReplaceRelative | services/image_service.py:151-203 | when no candidate exists the match stays and nothing changes, no name being drawn |
| ImageRewrite.ReplaceMarker | services/image_service.py:217-225 | with the images used up the marker stays and nothing changes; otherwise the image index and the name supply each advance by one |
| ImageRewrite.Rewrite | services/image_service.py:52-54 | any mode other than `referenced` returns the content unchanged and touches nothing; an image directory that cannot be created is an error that leaves the disk as it was |
| ImageService.NameSupply.constructor | services/image_service.py:83 | the supply of `uuid4().hex` values starts at the given draw |
| ImageService.NameSupply.Fresh | services/image_service.py:83 | returns the next value and advances the supply by one |
| ImageService.RelocateM | services/image_service.py:186-192 | draws a name, copies the source and counts it, with the disk, supply and count that `Relocate` specifies |
| ImageService.FindSource | services/image_service.py:171-178 | the loop over the candidates returns the first one that is a file |
| ImageService.ReplaceDataUriM | services/image_service.py:69-107 | the markdown and HTML data-URI replacers yield the text and disk that `ReplaceDataUri` specifies |
| ImageService.ReplaceRelativeM | services/image_service.py:151-203 | the relative replacers yield the text and disk that `ReplaceRelative` specifies |
| ImageService.ReplaceMarkerM | services/image_service.py:217-250 | the marker replacer yields the text, disk and image index that `ReplaceMarker` specifies |
| ImageService.MarkerTakes | services/image_service.py:224-225 | while images remain the marker takes the image at the index and moves the index past it |
| ImageService.TakeImageM | services/image_service.py:224-246 | copies the chosen image and links it under its stem, as `TakeImage` specifies |
| ImageService.ReplaceM | services/image_service.py:69-250 | dispatches a match to its pattern's replacer, computing what `Replace` specifies |
| ImageService.SubStep | services/image_service.py:110 | one step of `re.sub` moves the scan strictly forward, and its text followed by the rest of the pass is the whole pass |
| ImageService.SubM | services/image_service.py:110-253 | the `re.sub` loop produces the text, disk, supply, count and index of `Sub` from position 0 |
| ImageService.CollectImages | services/image_service.py:138-143 | `all_image_files` is `ImageFiles` of the candidate directories, directory by directory |
| ImageService.FallbackStep | services/image_service.py:262-282 | one fallback iteration relocates the image and yields its entry, or "" when the copy fails |
| ImageService.FallbackM | services/image_service.py:255-285 | the fallback loop appends exactly the `Fallback` text and leaves the disk and supply it specifies |
| ImageService.ProcessImages | services/image_service.py:12-296 | `process_markdown_images` and `process_html_images` return the text, and leave the disk and name supply, that `Rewrite` specifies |
| ImageProps.GrowsTrans | services/image_service.py:12-296 | the "only adds files in the image directory" relation between states composes |
| ImageProps.DestInDir | services/image_service.py:60-84 | every minted destination lies inside `IMAGES_DIR/<base>` |
| ImageProps.WriteGrows | services/image_service.py:84-90 | writing a decoded image to a minted name only adds inside the image directory and counts one image |
| ImageProps.ReplaceGrows | services/image_service.py:69-250 | every replacer only adds or overwrites files inside the image directory |
| ImageProps.RelocateGrows | services/image_service.py:186-192 | a copy to a minted name only adds inside the image directory and draws one name |
| ImageProps.RelativeGrows | services/image_service.py:151-203 | the relative replacer only adds inside the image directory |
| ImageProps.DataUriOutcome | services/image_service.py:80-100 | decodable data is written as exactly its decoded bytes under the next minted name, the match becomes a link, and the count grows by one; a failed write leaves the match |
| ImageProps.RelativeOutcome | services/image_service.py:174-199 | the first existing candidate is copied byte for byte under the next minted name and linked |
| ImageProps.RelocateOutcome | services/image_service.py:186-192 | relocating an existing file succeeds exactly when the destination can be written |
| ImageProps.MarkerOutcome | services/image_service.py:224-246 | marker `i` copies image `i`, links it under its stem and advances the index; a failed copy keeps the marker but still advances |
| ImageProps.SubGrows | services/image_service.py:110 | a whole `re.sub` pass only adds or overwrites files inside the image directory |
| ImageProps.DataUriPassesGrow | services/image_service.py:441-442 | the data-URI passes only add inside the image directory (line 110 for markdown) |
| ImageProps.RelativePassesGrow | services/image_service.py:588-589 | the relative-path passes only add inside the image directory (line 206 for markdown) |
| ImageProps.MarkerPassGrows | services/image_service.py:209-253 | the marker pass only adds inside the image directory |
| ImageProps.RewriteFrame | services/image_service.py:12-296 | a whole call never removes a file and never changes one outside the image directory |
| ImageProps.SubNoMatch | services/image_service.py:110 | where no match starts `re.sub` returns its input and changes nothing |
| ImageProps.SubAtEnd | services/image_service.py:253 | `re.sub` on the empty rest emits nothing |
| ImageProps.SubAtMarker | services/image_service.py:253 | at a marker the pass emits the marker's replacement, then continues after it |
| ImageProps.SubPastMarker | services/image_service.py:253 | where no marker starts one character is copied |
| ImageProps.MarkerIndexStep | services/image_service.py:220-225 | one marker moves `img_index` by one, but not past the last image |
| ImageProps.MarkerCountPast | services/image_service.py:33 | the marker count skips a position where no marker starts |
| ImageProps.MarkerCountAt | services/image_service.py:33 | a marker adds one to the count and the scan resumes after it |
| ImageProps.MarkerPassIndex | services/image_service.py:215-253 | after the marker pass `img_index` is the smaller of the number of images and the number of markers |
| ImageProps.MarkerPassBelow | services/image_service.py:215-253 | while images remain each marker advances the index by one |
| ImageProps.MarkerPassAbove | services/image_service.py:215-253 | with more markers than images the index ends at the last image |
| ImageProps.MarkersExhausted | services/image_service.py:220-222 | once the images are used up every further marker stays literal and nothing changes |
| ImageProps.FallbackShape | services/image_service.py:255-285 | the fallback draws one name per image, relocates at most one file each, and appends text exactly when some copy succeeded |
| ImageProps.MintedNamesDistinct | services/image_service.py:83 | two different hex values give two different file names, whatever the extensions (the same naming at lines 186, 229 and 264) |
| ImageProps.MarkdownAltEscaped | services/image_service.py:99 | every ']' of the escaped markdown alt text is preceded by a backslash |
| ImageProps.HtmlAltEscaped | services/image_service.py:389 | the escaped HTML alt text holds no '"' |
| ImageProps.RewrittenSourceSkipped | services/image_service.py:30 | a rewritten link's `/static/images/…` source is never picked up again by the relative patterns (the web path built at line 94) |
| ImageProps.AltSpansEarlierLink | services/image_service.py:30 | as written the lazy alt group runs over a link whose source starts with '/': in `![a](/x) ![b](c)` the alt text is `a](/x) ![b` |
| ImageProps.AltOfExample | services/image_service.py:30 | the alt text of that example, character by character |
| ImageProps.LazyAltLands | services/image_service.py:27-30 | the lazy alt ends at the first position where the tail matches, with no newline before it |
| ImageProps.FirstLinkSkipped | services/image_service.py:30 | no tail of the example matches before its second link |
| ImageProps.SecondLinkTail | services/image_service.py:30 | the second link of the example qualifies |
| ImageProps.LazyAltSkips | services/image_service.py:27-30 | the lazy alt grows over positions where no tail matches and no newline lies |
| ImageProps.CandidateDirsRepeat | services/image_service.py:113-123 | `possible_img_dirs` is not deduplicated: an `images` subdirectory is listed twice |
| ImageProps.GlobSingle | services/image_service.py:141-142 | a name without the extension is not globbed |
| ImageProps.MixedCaseNotCollected | services/image_service.py:141-143 | the globs are case-sensitive: `a.Png` matches neither `*.png` nor `*.PNG` |
| ConversionRouter.FallbackIsName | routers/conversion.py:58-66 | the fallback base name `document_from_url` holds no path separator |
| ConversionRouter.RisingBetween | routers/conversion.py:146-227 | checkpoints that rise below 100, between an "init" at 0 and a final 100, rise as a whole |
| Export.EmitFrame | services/file_service.py:176-255 | writing the result changes no file except the output file and files inside the image directory, and removes none |
| UrlJob.Resumed | services/conversion_service.py:185-280 | running the job's stages one after another logs the concatenation of their checkpoints |
| TaskState.ProgressReadAfterWrite | services/progress_service.py:3-10 | once a task's progress entry is replaced, a lookup of that task (with the defaults of routers/tasks.py:13-21 and :33-37) sees exactly the new entry, and a lookup of any other task sees what it saw before |
| TaskState.ReportAfterUpdate | routers/tasks.py:26-44 | after `update_progress(id, p, s, m)` on a batch task, `get_task(id)` succeeds and reports exactly progress `p`, status `s` and message `m`, with the task's results; the batch records are unchanged |
| TaskState.DeleteRefusedIff | routers/tasks.py:54-57 | deletion is refused exactly for the statuses `init`, `uploading`, `downloading`, `converting` and `processing`; `queued`, `partial_error`, `complete`, `error` and a missing status are allowed |
| TaskState.TaskStore.constructor | services/progress_service.py:1 | the progress and batch dictionaries start empty |
| TaskState.TaskStore.UpdateProgress | services/progress_service.py:3-10 | `update_progress` replaces the task's entry with exactly the given progress, status and message; every other entry is unchanged and the write is logged |
| TaskState.TaskStore.GetTask | routers/tasks.py:26-44 | 404 exactly when the task is not a batch task; otherwise its id, creation time, file count, results and options from the batch record, with the progress, status and message of its progress entry or the defaults 0, `unknown`, "" |
| TaskState.TaskStore.Summaries | routers/tasks.py:10-22 | one summary per batch task, each with the task's own fields and progress |
| TaskState.TaskStore.ListTasks | routers/tasks.py:7-24 | every batch task summarised exactly once, ordered by creation time, newest first |
| TaskState.TaskStore.DeleteTask | routers/tasks.py:46-64 | 404 and nothing changed for an unknown task; 400 and nothing changed while the task is in progress; otherwise the batch record and the progress entry are both removed and nothing else changes |
| Models.DefaultOptions | models.py:46-62 | the defaults: referenced images, the standard pipeline, OCR on but not forced, no OCR language, the dlparse_v2 backend, no enrichments, 4 threads |
| Models.DefaultRequest | models.py:14-32 | a request with only a source converts to markdown with no output name and the default options |
| Percent.Utf8Char | services/image_service.py:64 | a character encodes to one to four UTF-8 bytes, to one byte exactly when it is ASCII, and that byte is its code |
| Percent.HexDigit | services/image_service.py:64 | `quote` writes upper-case hexadecimal digits |
| Percent.HighNibble | services/image_service.py:64 | the high nibble of a byte is its quotient by 16 |
| Percent.HexValue | services/image_service.py:64 | reading a hexadecimal digit yields 0 to 15, or -1 for any other character |
| Percent.HexDigitRoundTrip | services/image_service.py:64 | reading back a written hexadecimal digit gives the digit's value |
| Percent.UnquoteEncodeByte | services/image_service.py:64 | decoding an encoded byte followed by more text yields that byte, then the decoding of the rest |
| Percent.UnquoteQuoteBytes | services/image_service.py:93 | percent-decoding undoes `quote` on any byte sequence |
| Percent.UnquoteQuote | services/image_service.py:93 | percent-decoding `quote(s, safe='')` gives back the UTF-8 bytes of `s` |
| Percent.QuoteBytesAlphabet | services/image_service.py:93 | the quoted text is made of unreserved characters, '%' and upper-case hexadecimal digits |
| Percent.QuoteHasNoSeparator | services/image_service.py:93 | with `safe=''` the quoted text holds no '/', so an encoded name stays one path segment |
| Percent.QuoteUnreserved | services/image_service.py:93 | text made only of unreserved characters (a minted image name) is quoted unchanged |
| Sorting.TextLeTotal | services/image_service.py:213 | the order on names that sorts the image files is total |
| Sorting.InsertByName | services/image_service.py:213 | inserting a name keeps every element and adds the one name |
| Sorting.InsertByNameSorted | services/image_service.py:213 | inserting into a list sorted by name keeps it sorted |
| Sorting.SortByName | services/image_service.py:213 | `sort(key=lambda p: p.name)` is a permutation of the image files (line 596 for HTML) |
| Sorting.SortByNameSorted | services/image_service.py:213 | and its result is ordered by name |
| Sorting.InsertDesc | routers/tasks.py:24 | inserting by key keeps every element and adds the one element |
| Sorting.InsertDescSorted | routers/tasks.py:24 | inserting into a list sorted by descending key keeps it sorted |
| Sorting.SortDesc | routers/tasks.py:24 | `sorted(..., reverse=True)` is a permutation of its input |
| Sorting.SortDescSorted | routers/tasks.py:24 | and its result is ordered by descending key |
| Disk.WriteFile | services/file_service.py:22 | `open(p, "w").write(c)` succeeds exactly when `p` is writable; then `p` holds exactly `c` and no other file changes, otherwise nothing changes (also lines 66 and 192) |
| Disk.CopyFile | services/image_service.py:191 | `shutil.copy2` succeeds exactly when the source is a file and the destination writable; the copy holds the source's bytes |
| Disk.MakeDir | services/file_service.py:146 | `mkdir(parents=True, exist_ok=True)` fails only when a file is in the way; it keeps every file and an existing directory |
| Disk.Without | services/conversion_service.py:277 | the directory listing without one name holds every other name |
| Disk.RemoveFile | services/conversion_service.py:277 | `unlink` removes exactly the one file |
| Disk.FileSystem.constructor | services/file_service.py:18-28 | the disk starts in the given state |
| Disk.FileSystem.Write | services/file_service.py:22 | writing in place leaves the disk `WriteFile` specifies (also lines 66 and 192) |
| Disk.FileSystem.Copy | services/image_service.py:191 | copying in place leaves the disk `CopyFile` specifies |
| Disk.FileSystem.Remove | services/conversion_service.py:277 | removing in place leaves the disk `RemoveFile` specifies |
| Disk.FileSystem.MakeDirs | services/file_service.py:146 | creating a directory in place leaves the disk `MakeDir` specifies |
| Runtime.ModelServices | services/conversion_service.py:42-154 | the converter decisions and `export_document` of the model form services that serve a platform and host |
| Runtime.ConverterFor | services/conversion_service.py:42-154 | the converter built for the options is the one the service decides on |
| Runtime.ExportAt | services/file_service.py:75-338 | the export step's answer, disk and uuid count are those the exporter specifies |
| Runtime.AfterWritesAppend | services/progress_service.py:3-10 | applying two runs of progress writes is applying their concatenation |
| Runtime.Checkpoint | services/progress_service.py:3-10 | a checkpoint logs one tagged write and updates the task's progress entry |

## Left out

- The conversion library (docling) is not modelled. The rendered texts of
  a document are inputs (`Export.Rendering`), a conversion is a function
  given to the jobs, and converter objects are represented by the record of
  choices handed to them.
- The network and the temporary file's random name are inputs of the URL
  job (`UrlJob.UrlWorld`). The HTTP download is modelled only by its
  outcome.
- `uuid4().hex` is an injected supply (`hex: nat -> string`). Only the
  shape of its values is assumed: 32 lower-case hexadecimal digits. That
  they differ is not assumed; `ImageProps.MintedNamesDistinct` states that
  distinct values give distinct image names.
- Base64 decoding is an injected function. It returns `None` where
  `b64decode` raises.
- Reading JSON and UTF-8 back from a file is an injected `Documents.Reader`.
  `ReadsBack` states that it inverts what `save_metadata` writes.
- ConversionRouter.Midpoint: `int(((i + 0.5) / total) * 100)` is modelled
  in integers as `(2i + 1) * 50 / total`. This is the exact quotient,
  truncated. Where that quotient is a whole number, float rounding could
  make the source's value one less; this is not modelled.
- Times (`time.time()`, `stat().st_mtime`) are integers given as inputs.
  Sub-second ordering is not modelled.
- Sorting.SortDesc, Sorting.SortByName: stability among equal keys is not
  stated. The contracts state the ordering and the permutation only.
  `TaskState.TaskStore.Summaries` visits the batch records in some order
  of their keys, not in the dictionary's insertion order, so which of two
  tasks created at the same time is listed first is not modelled.
- Documents.ViewDocument: requires a non-empty file name without '/'. A
  FastAPI path segment cannot be anything else.
- Documents.ListDocuments: the outer `except` that turns any exception of
  the listing into a 500 response is not modelled. The per-file `stat`
  errors are modelled.
- The HTML templates, the `TemplateResponse` objects, `print` logging and
  the static-file mount are not modelled.
- Concurrency between background tasks and requests is not modelled. Each
  operation runs alone on the shared state.
- Strings.Lower: case folding is modelled for ASCII letters only. The
  service only lowers format and mode names.
- Paths: paths are already normalised `/`-separated strings.
  `Path.resolve()` of a relative path is the working directory joined with
  it. Symbolic links are not modelled.
- ConversionService.UrlPath: of urlsplit's checks, the bracket pairing in
  the network location is modelled; the validation of a bracketed host
  (`_check_bracketed_netloc`, which needs an IPv6 address parser) and the
  NFKC check on non-ASCII network locations are not. A URL they reject
  is parsed here.
- Exception texts raised by the operating system (a failed `open`,
  `mkdir`, `copy2` or `iterdir`) are abstracted as "cannot write <path>",
  "cannot create <path>" and "cannot list <path>" (`FileService.SaveUploadedFile`,
  `Export.Finish`, `ImageRewrite.Rewrite`, `UrlJob.Job`,
  `ConversionRouter.SavePass`). These texts reach the batch result's `error`
  field and the URL job's error record in place of Python's `str(e)`.
- Disk.MakeDir: `mkdir(parents=True)` is modelled as adding the one
  directory. Missing ancestors are not created, and an ancestor that is a
  file is not an error.
- Glob matching is modelled as an exact name suffix. It is case-sensitive,
  as on Linux.
- The URL job's `Job` specification unfolds a fixed sequence of phases
  (`UrlJob.Phase`). Each phase strictly decreases a rank, so no fuel bound
  is needed.
