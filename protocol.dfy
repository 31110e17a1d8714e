/** The message contract between the main thread and the inference worker,
    shared by the single-image page, the batch queue and the worker itself.
    The source declares these shapes separately in each file; here each is
    declared once. */
module Protocol {
  import opened Base

  newtype byte = x: int | 0 <= x < 256

  datatype Tier = Fast | Quality | Pro
  datatype BgMode = Transparent | Color | ImageBg
  datatype ExportFormat = Png | Webp
  datatype Device = Auto | Gpu | Cpu

  /** The text a format contributes to a file name. */
  function FormatName(f: ExportFormat): string {
    match f
    case Png => "png"
    case Webp => "webp"
  }

  datatype Image = Image(mime: string, bytes: seq<byte>)

  /** The `options` object of a `process` request. `device` is absent when the
      single-image page sends it. */
  datatype WireOptions = WireOptions(
    tier: Tier,
    refineEdges: bool,
    bgMode: BgMode,
    bgColor: string,
    bgImageBytes: Option<seq<byte>>,
    exportFormat: ExportFormat,
    device: Option<Device>)

  /** Messages posted to the worker. `Unknown` stands for any other `type`. */
  datatype Request =
    | Init(id: string, tier: Tier, preferFp16: bool, refineEdgesDefault: bool)
    | Process(id: string, image: Image, options: WireOptions)
    | Dispose(id: string)
    | Unknown(id: string, kind: string)

  /** Messages posted by the worker. */
  datatype Event =
    | Progress(id: string, phase: string, loaded: Option<real>, total: Option<real>, message: Option<string>)
    | Result(id: string, bytes: seq<byte>, width: int, height: int, timingMs: int)
    | Error(id: string, errorMessage: string)

  predicate IsTerminal(e: Event) {
    !e.Progress?
  }

  /** The progress snapshot both pages keep: an optional percentage and an
      optional message. */
  datatype ProgressView = ProgressView(pct: Option<real>, message: Option<string>)

  /** The percentage both pages show: loaded over total times 100, absent
      unless both are present and the total is positive. */
  function PercentOf(loaded: Option<real>, total: Option<real>): (r: Option<real>)
    ensures r.Some? <==> loaded.Some? && total.Some? && total.value > 0.0
    ensures r.Some? ==> r.value * total.value == loaded.value * 100.0
  {
    if loaded.Some? && total.Some? && total.value > 0.0
    then Some(loaded.value / total.value * 100.0)
    else None
  }

  /** A percentage of a download that has not overshot lies in 0..100. */
  lemma PercentInRange(loaded: real, total: real)
    requires 0.0 <= loaded <= total && total > 0.0
    ensures PercentOf(Some(loaded), Some(total)).Some?
    ensures 0.0 <= PercentOf(Some(loaded), Some(total)).value <= 100.0
  {
    var p := loaded / total * 100.0;
    assert p * total == loaded * 100.0;
    assert p * total <= total * 100.0;
  }

  /** The background mode sent to the worker: any present background image
      (even an empty array, which JavaScript treats as true) forces the image
      mode; otherwise the chosen mode. */
  function EffectiveBgMode(bgMode: BgMode, bgImageBytes: Option<seq<byte>>): (m: BgMode)
    ensures bgImageBytes.Some? ==> m == ImageBg
    ensures bgImageBytes.None? ==> m == bgMode
  {
    if bgImageBytes.Some? then ImageBg else bgMode
  }
}
