/** The request, option and progress records of the service, with the
    defaults its pydantic models declare. The enumerations of the
    conversion library appear as closed datatypes; a value the service's
    branches do not name is represented by an extra `Other...` case so the
    fall-through paths of the conversion service can be stated. */
module Models {
  import opened Wrappers

  datatype ImageRefMode = Embedded | Referenced | Placeholder
  {
    /** The enum's `.value`. */
    function Value(): string
    {
      match this
      case Embedded => "embedded"
      case Referenced => "referenced"
      case Placeholder => "placeholder"
    }
  }

  datatype PdfPipeline = Standard | Vlm | OtherPipeline

  datatype VlmModelType = GraniteVision | SmolDocling | OtherVlmModel

  datatype PdfBackend = DlparseV1 | DlparseV2 | DlparseV4 | Pypdfium2 | OtherBackend

  datatype TableFormerMode = Fast | Accurate

  datatype AcceleratorDevice = Auto | Cpu | Cuda | Mps

  /** `EasyOcrOptions.kind`, the default OCR engine name. */
  const EasyOcrKind: string := "easyocr"

  /** `ConversionOptions`: every field carries the model's default. */
  datatype ConversionOptions = ConversionOptions(
    imageExportMode: ImageRefMode := Referenced,
    pipeline: PdfPipeline := Standard,
    vlmModel: VlmModelType := SmolDocling,
    ocr: bool := true,
    forceOcr: bool := false,
    ocrEngine: string := EasyOcrKind,
    ocrLang: Option<string> := None,
    pdfBackend: PdfBackend := DlparseV2,
    tableMode: TableFormerMode := Accurate,
    enrichCode: bool := false,
    enrichFormula: bool := false,
    enrichPictureClasses: bool := false,
    enrichPictureDescription: bool := false,
    numThreads: int := 4,
    device: AcceleratorDevice := Auto)

  /** The export formats a request may name (`Literal[...]` in the model). */
  predicate IsRequestFormat(f: string)
  {
    f == "markdown" || f == "json" || f == "yaml" || f == "html" || f == "text" || f == "doctags"
  }

  type RequestFormat = f: string | IsRequestFormat(f) witness "markdown"

  /** `ConversionRequest`: the source, the optional output name, the format
      and the same options as `ConversionOptions` (grouped here). */
  datatype ConversionRequest = ConversionRequest(
    source: string,
    outputFilename: Option<string> := None,
    format: RequestFormat := "markdown",
    options: ConversionOptions := ConversionOptions())

  /** `ProgressInfo`: exactly these four fields. */
  datatype ProgressInfo = ProgressInfo(taskId: string, progress: int, status: string, message: string)

  /** The options a request falls back to: what `ConversionOptions()` builds. */
  function DefaultOptions(): (o: ConversionOptions)
    ensures o.imageExportMode == Referenced && o.pipeline == Standard
    ensures o.ocr && !o.forceOcr
    ensures o.ocrLang == None && o.pdfBackend == DlparseV2 && o.numThreads == 4
    ensures !o.enrichCode && !o.enrichFormula && !o.enrichPictureClasses && !o.enrichPictureDescription
  {
    ConversionOptions()
  }

  /** A request that names only its source converts to markdown with the
      default options. */
  function DefaultRequest(source: string): (r: ConversionRequest)
    ensures r.source == source && r.outputFilename == None
    ensures r.format == "markdown" && r.options == DefaultOptions()
  {
    ConversionRequest(source)
  }
}
