/** The single-image page: its settings, the image it shows, and the request
    id that decides which worker events it accepts. Every new request gets a
    fresh id, and an event is applied only if it carries the current one
    (progress also when it carries `'init'`); an applied result or error
    clears the id. */
module App {
  import opened Base
  import opened Protocol

  datatype ModelStatus = Loading | Ready | Failed

  datatype Capabilities = Capabilities(webgpu: bool, fp16: bool, recommended: Tier)

  /** What `detectWebGPU` resolves to. */
  datatype Detection = Detection(supported: bool, shaderF16: bool)

  /** The settings the user picks in the side panel. */
  datatype Settings = Settings(quality: Tier, refine: bool, bgMode: BgMode, bgColor: string, exportFmt: ExportFormat)

  /** The recommended tier: fast without WebGPU, quality with it (both
      shader-f16 branches choose quality). */
  function RecommendedTier(d: Detection): (t: Tier)
    ensures t == Fast <==> !d.supported
    ensures t != Pro
  {
    if !d.supported then Fast else if d.shaderF16 then Quality else Quality
  }

  /** The backend label shown once detection succeeds. */
  function BackendLabel(d: Detection): (l: string)
    ensures l == "WASM" <==> !d.supported
    ensures l == "WebGPU FP16" <==> d.supported && d.shaderF16
    ensures l == "WebGPU FP32" <==> d.supported && !d.shaderF16
  {
    if !d.supported then "WASM"
    else if d.shaderF16 then "WebGPU FP16"
    else "WebGPU FP32"
  }

  /** A JavaScript string is truthy when it is present and not empty. */
  predicate Truthy(s: Option<string>) {
    s.Some? && s.value != ""
  }

  /** The status line above the preview. */
  function StatusLabel(processing: bool, message: Option<string>, outputUrl: Option<string>): (l: string)
    ensures processing && message.Some? ==> l == message.value
    ensures processing && message.None? ==> l == "Processing\U{2026}"
    ensures !processing ==> (l == "Done" <==> Truthy(outputUrl)) && (l == "Idle" <==> !Truthy(outputUrl))
  {
    if processing then (if message.Some? then message.value else "Processing\U{2026}")
    else if Truthy(outputUrl) then "Done"
    else "Idle"
  }

  /** The `process` request for an image under the given settings. */
  function ProcessRequest(id: string, image: Image, s: Settings, bgImageBytes: Option<seq<byte>>): (r: Request)
    ensures r.Process? && r.id == id && r.image == image
    ensures r.options.bgMode == EffectiveBgMode(s.bgMode, bgImageBytes)
    ensures r.options.tier == s.quality && r.options.exportFormat == s.exportFmt
    ensures r.options.bgImageBytes == bgImageBytes && r.options.device.None?
    ensures r.options.refineEdges == s.refine && r.options.bgColor == s.bgColor
  {
    Process(id, image, WireOptions(s.quality, s.refine, EffectiveBgMode(s.bgMode, bgImageBytes), s.bgColor, bgImageBytes, s.exportFmt, None))
  }

  /** Whether the page applies an event, given the current request id. */
  predicate Accepts(current: Option<string>, ev: Event) {
    current == Some(ev.id) || (ev.Progress? && ev.id == "init")
  }

  /** Once a request is current, events for any other id are rejected, apart
      from progress from `'init'`; with no current request only `'init'`
      progress gets through. */
  lemma AcceptsOnlyCurrent(current: Option<string>, ev: Event)
    ensures Accepts(current, ev) && IsTerminal(ev) ==> current == Some(ev.id)
    ensures current.None? ==> (Accepts(current, ev) <==> ev.Progress? && ev.id == "init")
    ensures current.Some? && ev.id != current.value && ev.id != "init" ==> !Accepts(current, ev)
  {
  }

  class Session {
    var settings: Settings
    var bgImageBytes: Option<seq<byte>>
    var bgImageUrl: Option<string>
    var inputUrl: Option<string>
    var outputUrl: Option<string>
    var processing: bool
    var progress: ProgressView
    var backendLabel: string
    var cachedImage: Option<Image>
    var modelStatus: ModelStatus
    var capabilities: Capabilities
    /** `currentRequestId.current`. */
    var currentRequestId: Option<string>
    /** Whether `worker.current` is set. */
    const hasWorker: bool
    /** Every message posted to the worker, in order. */
    var outbox: seq<Request>
    /** Every id `crypto.randomUUID` has handed out. */
    ghost var issued: set<string>

    /** Every posted `process` request carries an issued id; a current
        request id is the id of the last `process` request posted; the page is
        processing only while an id is current. */
    ghost predicate Valid()
      reads this
    {
      (processing ==> currentRequestId.Some?)
      && (forall k :: 0 <= k < |outbox| && outbox[k].Process? ==> outbox[k].id in issued)
      && (currentRequestId.Some? ==> LastProcess().Process? && LastProcess().id == currentRequestId.value)
      && "init" !in issued
    }

    /** The last `process` request in the outbox, or an `Unknown` placeholder. */
    ghost function LastProcess(): Request
      reads this
    {
      LastProcessIn(outbox)
    }

    constructor (hasWorker: bool)
      ensures Valid()
      ensures this.hasWorker == hasWorker
      ensures settings == Settings(Quality, true, Transparent, "#0f172a", Png)
      ensures bgImageBytes.None? && bgImageUrl.None? && inputUrl.None? && outputUrl.None?
      ensures !processing && progress == ProgressView(None, None)
      ensures backendLabel == "Detecting\U{2026}" && cachedImage.None? && modelStatus == Loading
      ensures capabilities == Capabilities(false, false, Quality)
      ensures currentRequestId.None? && outbox == [] && issued == {}
    {
      this.hasWorker := hasWorker;
      settings := Settings(Quality, true, Transparent, "#0f172a", Png);
      bgImageBytes := None;
      bgImageUrl := None;
      inputUrl := None;
      outputUrl := None;
      processing := false;
      progress := ProgressView(None, None);
      backendLabel := "Detecting\U{2026}";
      cachedImage := None;
      modelStatus := Loading;
      capabilities := Capabilities(false, false, Quality);
      currentRequestId := None;
      outbox := [];
      issued := {};
    }

    /** The message effect's set-up: post `init` with the current tier and
        refinement setting. It runs on mount and again whenever the export
        format changes. */
    method PostInit()
      requires Valid()
      modifies this
      ensures Valid()
      ensures outbox == old(outbox) + if hasWorker then [Init("init", settings.quality, true, settings.refine)] else []
      ensures settings == old(settings) && currentRequestId == old(currentRequestId) && issued == old(issued)
      ensures processing == old(processing) && progress == old(progress) && outputUrl == old(outputUrl)
    {
      if hasWorker {
        LastProcessAppend(outbox, Init("init", settings.quality, true, settings.refine));
        outbox := outbox + [Init("init", settings.quality, true, settings.refine)];
      }
    }

    /** The outcome of `detectWebGPU`: `None` when it rejects. */
    method OnDetection(d: Option<Detection>)
      requires Valid()
      modifies this
      ensures Valid()
      ensures d.None? ==>
        modelStatus == Failed && backendLabel == "Error"
        && capabilities == old(capabilities) && settings == old(settings)
      ensures d.Some? ==>
        modelStatus == Ready && backendLabel == BackendLabel(d.value)
        && capabilities == Capabilities(d.value.supported, d.value.shaderF16, RecommendedTier(d.value))
        && settings == old(settings).(quality := RecommendedTier(d.value))
      ensures outbox == old(outbox) && currentRequestId == old(currentRequestId) && issued == old(issued)
      ensures processing == old(processing) && progress == old(progress) && outputUrl == old(outputUrl)
    {
      if d.None? {
        modelStatus := Failed;
        backendLabel := "Error";
      } else {
        var recommended := RecommendedTier(d.value);
        capabilities := Capabilities(d.value.supported, d.value.shaderF16, recommended);
        settings := settings.(quality := recommended);
        backendLabel := BackendLabel(d.value);
        modelStatus := Ready;
      }
    }

    /** A settings change from the side panel; changing the export format
        re-runs the message effect, which posts `init` again. */
    method SetSettings(s: Settings)
      requires Valid()
      modifies this
      ensures Valid()
      ensures settings == s
      ensures outbox == old(outbox)
        + if hasWorker && s.exportFmt != old(settings).exportFmt then [Init("init", s.quality, true, s.refine)] else []
      ensures currentRequestId == old(currentRequestId) && issued == old(issued)
      ensures processing == old(processing) && progress == old(progress) && outputUrl == old(outputUrl)
    {
      var changed := s.exportFmt != settings.exportFmt;
      settings := s;
      if changed {
        PostInit();
      }
    }

    /** The worker message handler. `url` is the object URL made for a
        result's bytes and `seconds` the result's time in seconds, written
        with two decimals. */
    method OnMessage(ev: Event, url: string, seconds: string)
      requires Valid()
      modifies this
      ensures Valid()
      ensures !Accepts(old(currentRequestId), ev) ==>
        outputUrl == old(outputUrl) && processing == old(processing)
        && progress == old(progress) && currentRequestId == old(currentRequestId)
      ensures Accepts(old(currentRequestId), ev) && ev.Progress? ==>
        progress == ProgressView(PercentOf(ev.loaded, ev.total), ev.message)
        && outputUrl == old(outputUrl) && processing == old(processing) && currentRequestId == old(currentRequestId)
      ensures Accepts(old(currentRequestId), ev) && ev.Result? ==>
        outputUrl == Some(url) && !processing && currentRequestId.None?
        && progress == ProgressView(None, Some("Processed in " + seconds + "s"))
      ensures Accepts(old(currentRequestId), ev) && ev.Error? ==>
        outputUrl == old(outputUrl) && !processing && currentRequestId.None?
        && progress == ProgressView(None, Some(ev.errorMessage))
      ensures settings == old(settings) && bgImageBytes == old(bgImageBytes) && inputUrl == old(inputUrl)
      ensures cachedImage == old(cachedImage) && outbox == old(outbox) && issued == old(issued)
    {
      if !Accepts(currentRequestId, ev) {
        return;
      }
      match ev {
        case Progress(_, _, loaded, total, message) =>
          progress := ProgressView(PercentOf(loaded, total), message);
        case Result(_, _, _, _, _) =>
          outputUrl := Some(url);
          processing := false;
          progress := ProgressView(None, Some("Processed in " + seconds + "s"));
          currentRequestId := None;
        case Error(_, message) =>
          progress := ProgressView(None, Some(message));
          processing := false;
          currentRequestId := None;
      }
    }

    /** Issue a `process` request under a fresh id and make it current. */
    method Issue(requestId: string, image: Image, starting: string)
      requires Valid() && hasWorker
      requires requestId !in issued && requestId != "init"
      modifies this
      ensures Valid()
      ensures currentRequestId == Some(requestId) && processing
      ensures progress == ProgressView(None, Some(starting))
      ensures outbox == old(outbox) + [ProcessRequest(requestId, image, settings, bgImageBytes)]
      ensures issued == old(issued) + {requestId}
      ensures settings == old(settings) && bgImageBytes == old(bgImageBytes) && inputUrl == old(inputUrl)
      ensures outputUrl == old(outputUrl) && cachedImage == old(cachedImage)
      ensures forall k :: 0 <= k < |old(outbox)| && old(outbox)[k].Process? ==> old(outbox)[k].id != requestId
    {
      var r := ProcessRequest(requestId, image, settings, bgImageBytes);
      LastProcessAppend(outbox, r);
      issued := issued + {requestId};
      currentRequestId := Some(requestId);
      processing := true;
      progress := ProgressView(None, Some(starting));
      outbox := outbox + [r];
      forall k | 0 <= k < |outbox| && outbox[k].Process? ensures outbox[k].id in issued {
        if k < |old(outbox)| {
          assert outbox[k] == old(outbox)[k];
        }
      }
    }

    /** `handleFile`: cache the image, show it, clear the output, and post it
        under the fresh id `requestId` when a worker exists. */
    method HandleFile(mime: string, bytes: seq<byte>, url: string, requestId: string)
      requires Valid()
      requires requestId !in issued && requestId != "init"
      modifies this
      ensures Valid()
      ensures cachedImage == Some(Image(mime, bytes)) && inputUrl == Some(url) && outputUrl.None?
      ensures !hasWorker ==>
        !processing && progress == ProgressView(None, None)
        && outbox == old(outbox) && currentRequestId == old(currentRequestId) && issued == old(issued)
      ensures hasWorker ==>
        processing && currentRequestId == Some(requestId)
        && progress == ProgressView(None, Some("Starting\U{2026}"))
        && outbox == old(outbox) + [ProcessRequest(requestId, Image(mime, bytes), settings, bgImageBytes)]
        && issued == old(issued) + {requestId}
      ensures settings == old(settings) && bgImageBytes == old(bgImageBytes)
    {
      cachedImage := Some(Image(mime, bytes));
      inputUrl := Some(url);
      outputUrl := None;
      processing := false;
      progress := ProgressView(None, None);
      if !hasWorker {
        return;
      }
      Issue(requestId, Image(mime, bytes), "Starting\U{2026}");
    }

    /** `reprocess`: post the cached image again under a fresh id; nothing
        happens without a cached image or a worker. */
    method Reprocess(requestId: string)
      requires Valid()
      requires requestId !in issued && requestId != "init"
      modifies this
      ensures Valid()
      ensures cachedImage.None? || !hasWorker ==>
        outputUrl == old(outputUrl) && processing == old(processing) && progress == old(progress)
        && outbox == old(outbox) && currentRequestId == old(currentRequestId) && issued == old(issued)
      ensures cachedImage.Some? && hasWorker ==>
        outputUrl.None? && processing && currentRequestId == Some(requestId)
        && progress == ProgressView(None, Some("Reprocessing\U{2026}"))
        && outbox == old(outbox) + [ProcessRequest(requestId, cachedImage.value, settings, bgImageBytes)]
        && issued == old(issued) + {requestId}
      ensures settings == old(settings) && bgImageBytes == old(bgImageBytes)
      ensures inputUrl == old(inputUrl) && cachedImage == old(cachedImage)
    {
      if cachedImage.None? || !hasWorker {
        return;
      }
      outputUrl := None;
      Issue(requestId, cachedImage.value, "Reprocessing\U{2026}");
    }

    /** `onBgImageChange`: `None` when no file was chosen. */
    method OnBgImageChange(file: Option<(seq<byte>, string)>)
      requires Valid()
      modifies this
      ensures Valid()
      ensures file.None? ==> bgImageBytes == old(bgImageBytes) && bgImageUrl == old(bgImageUrl) && settings == old(settings)
      ensures file.Some? ==>
        bgImageBytes == Some(file.value.0) && bgImageUrl == Some(file.value.1)
        && settings == old(settings).(bgMode := ImageBg)
      ensures outbox == old(outbox) && currentRequestId == old(currentRequestId) && issued == old(issued)
      ensures processing == old(processing) && progress == old(progress) && outputUrl == old(outputUrl)
    {
      if file.None? {
        return;
      }
      bgImageBytes := Some(file.value.0);
      bgImageUrl := Some(file.value.1);
      settings := settings.(bgMode := ImageBg);
    }

    /** `reset`: the current request id is left as it is. */
    method Reset()
      requires Valid()
      modifies this
      ensures Valid()
      ensures inputUrl.None? && outputUrl.None? && bgImageBytes.None? && bgImageUrl.None?
      ensures !processing && progress == ProgressView(None, None)
      ensures currentRequestId == old(currentRequestId)
      ensures settings == old(settings) && cachedImage == old(cachedImage)
      ensures outbox == old(outbox) && issued == old(issued)
    {
      inputUrl := None;
      outputUrl := None;
      bgImageBytes := None;
      bgImageUrl := None;
      processing := false;
      progress := ProgressView(None, None);
    }
  }

  /** The last `process` request of a sequence, or an `Unknown` placeholder
      when there is none. */
  function LastProcessIn(s: seq<Request>): (r: Request)
    ensures r.Process? ==> exists k :: 0 <= k < |s| && s[k] == r
    ensures r.Process? || r == Unknown("", "")
    decreases |s|
  {
    if s == [] then Unknown("", "")
    else if s[|s| - 1].Process? then s[|s| - 1]
    else LastProcessIn(s[..|s| - 1])
  }

  lemma LastProcessAppend(s: seq<Request>, r: Request)
    ensures LastProcessIn(s + [r]) == if r.Process? then r else LastProcessIn(s)
  {
    assert (s + [r])[..|s + [r]| - 1] == s;
  }
}
